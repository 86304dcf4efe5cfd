/** Bounded capture of a command's output (src/rsched/captured_output.py): every credential the
    command was handed is replaced, the read is cut without splitting one, and output past the
    limit becomes an envelope that fits it. */
module Capture {
  import opened Basics

  const REDACT_MIN_CHARS := 8

  // ---------------------------------------------------------------------- the pattern

  /** The first alternative that matches at `p`, as a regular expression tries them. */
  function MatchAt(raw: string, p: nat, values: seq<string>): Option<string>
    requires p <= |raw|
  {
    if values == [] then None
    else if values[0] <= raw[p..] then Some(values[0])
    else MatchAt(raw, p, values[1..])
  }

  predicate LongestFirst(values: seq<string>) {
    forall i, k :: 0 <= i < k < |values| ==> |values[i]| >= |values[k]|
  }

  predicate Redactable(values: seq<string>) {
    LongestFirst(values) && forall v <- values :: |v| >= REDACT_MIN_CHARS
  }

  lemma {:induction false} MatchAtIff(raw: string, p: nat, values: seq<string>)
    requires p <= |raw|
    ensures MatchAt(raw, p, values).None? <==> forall v <- values :: !(v <= raw[p..])
    ensures MatchAt(raw, p, values).Some? ==>
              MatchAt(raw, p, values).value in values && MatchAt(raw, p, values).value <= raw[p..]
  {
    if values != [] {
      MatchAtIff(raw, p, values[1..]);
      assert values[0] in values;
      assert forall v :: v in values <==> v == values[0] || v in values[1..];
    }
  }

  /** A value that contains another is replaced whole: the match is the longest there is. */
  lemma {:induction false} MatchIsLongest(raw: string, p: nat, values: seq<string>, v: string)
    requires p <= |raw| && LongestFirst(values) && v in values && v <= raw[p..]
    ensures MatchAt(raw, p, values).Some? && |MatchAt(raw, p, values).value| >= |v|
  {
    if !(values[0] <= raw[p..]) {
      assert values == [values[0]] + values[1..];
      MatchIsLongest(raw, p, values[1..], v);
    }
  }

  /** What matches in the uncut text and ends before the cut matches in the cut text, and nothing
      else does. */
  lemma {:induction false} MatchCut(raw: string, cut: nat, p: nat, values: seq<string>)
    requires p <= cut <= |raw|
    ensures
      var m := MatchAt(raw, p, values);
      && (m.None? ==> MatchAt(raw[..cut], p, values).None?)
      && (m.Some? && p + |m.value| <= cut ==> MatchAt(raw[..cut], p, values) == m)
  {
    if values != [] {
      assert raw[..cut][p..] == raw[p..cut];
      assert raw[p..cut] <= raw[p..];
      MatchCut(raw, cut, p, values[1..]);
    }
  }

  // ---------------------------------------------------------------------- the matches

  datatype Span = Span(start: nat, end: nat)

  /** finditer: the matches from `p` on, leftmost first and never overlapping. */
  function Scan(raw: string, p: nat, values: seq<string>): seq<Span>
    requires p <= |raw| && forall v <- values :: |v| > 0
    decreases |raw| - p
  {
    if p == |raw| then []
    else
      var m := MatchAt(raw, p, values);
      MatchAtIff(raw, p, values);
      if m.None? then Scan(raw, p + 1, values)
      else [Span(p, p + |m.value|)] + Scan(raw, p + |m.value|, values)
  }

  predicate InSpan(p: nat, spans: seq<Span>) {
    exists m <- spans :: m.start <= p < m.end
  }

  predicate Straddles(m: Span, cut: nat) {
    m.start < cut < m.end
  }

  predicate Ordered(spans: seq<Span>, from: nat, to: nat) {
    && (forall m <- spans :: from <= m.start < m.end <= to)
    && (forall i, k :: 0 <= i < k < |spans| ==> spans[i].end <= spans[k].start)
  }

  lemma {:induction false} ScanOrdered(raw: string, p: nat, values: seq<string>)
    requires p <= |raw| && forall v <- values :: |v| > 0
    ensures Ordered(Scan(raw, p, values), p, |raw|)
    decreases |raw| - p
  {
    if p < |raw| {
      MatchAtIff(raw, p, values);
      var m := MatchAt(raw, p, values);
      ScanOrdered(raw, if m.None? then p + 1 else p + |m.value|, values);
    }
  }

  /** Every position the scan passes over starts no value. */
  lemma {:induction false} ScanMisses(raw: string, p: nat, values: seq<string>, q: nat)
    requires p <= q < |raw| && forall v <- values :: |v| > 0
    requires !InSpan(q, Scan(raw, p, values))
    ensures MatchAt(raw, q, values).None?
    decreases |raw| - p
  {
    MatchAtIff(raw, p, values);
    var m := MatchAt(raw, p, values);
    if m.None? {
      if p < q { ScanMisses(raw, p + 1, values, q); }
    } else {
      var rest := Scan(raw, p + |m.value|, values);
      var spans := [Span(p, p + |m.value|)] + rest;
      assert spans[0] in spans;
      assert forall n <- rest :: n in spans;
      ScanMisses(raw, p + |m.value|, values, q);
    }
  }

  function Before(spans: seq<Span>, cut: nat): seq<Span> {
    if spans == [] || spans[0].start >= cut then [] else [spans[0]] + Before(spans[1..], cut)
  }

  /** Re-scanning the cut text finds the very same matches, when the cut splits none. */
  lemma {:induction false} ScanCut(raw: string, cut: nat, p: nat, values: seq<string>)
    requires p <= cut <= |raw| && forall v <- values :: |v| > 0
    requires forall m <- Scan(raw, p, values) :: !Straddles(m, cut)
    ensures Scan(raw[..cut], p, values) == Before(Scan(raw, p, values), cut)
    decreases |raw| - p
  {
    if p < cut {
      MatchCut(raw, cut, p, values);
      var m := MatchAt(raw, p, values);
      if m.None? {
        ScanCut(raw, cut, p + 1, values);
      } else {
        FirstMatchKept(raw, cut, p, values);
        ScanCut(raw, cut, p + |m.value|, values);
      }
    } else {
      ScanAtCut(raw, cut, values);
    }
  }

  /** A match at `p` that the cut does not split ends before it, and so does the cut text's. */
  lemma FirstMatchKept(raw: string, cut: nat, p: nat, values: seq<string>)
    requires p < cut <= |raw| && (forall v <- values :: |v| > 0) && MatchAt(raw, p, values).Some?
    requires forall m <- Scan(raw, p, values) :: !Straddles(m, cut)
    ensures
      var end := p + |MatchAt(raw, p, values).value|;
      && p < end <= cut
      && (forall m <- Scan(raw, end, values) :: !Straddles(m, cut))
      && Before(Scan(raw, p, values), cut) == [Span(p, end)] + Before(Scan(raw, end, values), cut)
  {
    MatchAtIff(raw, p, values);
    var end := p + |MatchAt(raw, p, values).value|;
    var rest := Scan(raw, end, values);
    var spans := [Span(p, end)] + rest;
    assert Scan(raw, p, values) == spans;
    assert spans[0] in spans && !Straddles(spans[0], cut) && spans[1..] == rest;
    assert forall n <- rest :: n in spans;
  }

  lemma ScanAtCut(raw: string, cut: nat, values: seq<string>)
    requires cut <= |raw| && forall v <- values :: |v| > 0
    ensures Scan(raw[..cut], cut, values) == Before(Scan(raw, cut, values), cut) == []
  {
    ScanOrdered(raw, cut, values);
    var spans := Scan(raw, cut, values);
    if spans != [] { assert spans[0] in spans; }
  }

  lemma {:induction false} BeforeKeeps(spans: seq<Span>, cut: nat, p: nat, from: nat, to: nat)
    requires Ordered(spans, from, to) && p < cut && InSpan(p, spans)
    ensures InSpan(p, Before(spans, cut))
  {
    var m :| m in spans && m.start <= p < m.end;
    if m == spans[0] {
      assert Before(spans, cut)[0] == m;
    } else {
      var i :| 0 < i < |spans| && spans[i] == m;
      assert spans[0].end <= spans[i].start;
      assert spans[0] in spans && spans[1..][i - 1] == m;
      forall n | n in spans[1..] ensures n in spans { }
      assert InSpan(p, spans[1..]);
      BeforeKeeps(spans[1..], cut, p, from, to);
      var n :| n in Before(spans[1..], cut) && n.start <= p < n.end;
      assert n in Before(spans, cut);
    }
  }

  // ---------------------------------------------------------------------- the cut

  /** The cut moves past the match it would split, and past at most one. */
  method FindCut(spans: seq<Span>, start: nat, from: nat, to: nat) returns (cut: nat)
    requires Ordered(spans, from, to)
    ensures forall m <- spans :: !Straddles(m, cut)
    ensures cut == start || exists m <- spans :: Straddles(m, start) && cut == m.end
  {
    cut := start;
    for i := 0 to |spans|
      invariant forall k :: 0 <= k < i ==> !Straddles(spans[k], cut)
      invariant cut == start || exists k :: 0 <= k < i && Straddles(spans[k], start) && cut == spans[k].end
    {
      var m := spans[i];
      if m.start < cut < m.end {
        cut := m.end;
      }
    }
    assert forall m <- spans :: exists k :: 0 <= k < |spans| && spans[k] == m;
  }

  /** What `stream.read(limit + 1 + pad)` gives. */
  function ReadAhead(stream: string, limit: nat, pad: nat): string {
    stream[..Min(limit + 1 + pad, |stream|)]
  }

  predicate CutFor(raw: string, values: seq<string>, start: nat, cut: nat)
    requires forall v <- values :: |v| > 0
  {
    && cut <= |raw|
    && (forall m <- Scan(raw, 0, values) :: !Straddles(m, cut))
    && (cut == start || exists m <- Scan(raw, 0, values) :: Straddles(m, start) && cut == m.end)
  }

  /** What is before the cut: the text the replacement sees has exactly the matches the read had,
      none of which the cut splits, and no position that is left as it stands begins a credential of
      the whole stream. */
  predicate Covers(stream: string, raw: string, values: seq<string>, cut: nat)
    requires cut <= |raw| && forall v <- values :: |v| > 0
  {
    && Scan(raw[..cut], 0, values) == Before(Scan(raw, 0, values), cut)
    && (forall m <- Scan(raw, 0, values) :: !Straddles(m, cut))
    && forall p: nat, v | p < cut && v in values && !InSpan(p, Scan(raw[..cut], 0, values)) ::
         p <= |stream| ==> !(v <= stream[p..])
  }

  /** The promise of the read-ahead, for all inputs: no position before the cut that is left as it
      stands begins a credential of the whole stream, the cut splits none, and the text the
      replacement sees has exactly the matches the read had. */
  lemma RedactionCovers(stream: string, limit: nat, values: seq<string>, cut: nat)
    requires Redactable(values) && values != []
    requires
      var pad := |values[0]|;
      var raw := ReadAhead(stream, limit, pad);
      CutFor(raw, values, if |raw| < limit + 1 + pad then |raw| else limit + 1, cut)
    ensures
      Covers(stream, ReadAhead(stream, limit, |values[0]|), values, cut)
  {
    var pad := |values[0]|;
    var raw := ReadAhead(stream, limit, pad);
    var complete := |raw| < limit + 1 + pad;
    var spans := Scan(raw, 0, values);
    ScanOrdered(raw, 0, values);
    ScanCut(raw, cut, 0, values);
    if !complete {
      forall p | limit < p < cut ensures InSpan(p, spans) { PastLimitInSpan(raw, values, limit, cut, p); }
    }
    forall p, v | 0 <= p < cut && !InSpan(p, Scan(raw[..cut], 0, values)) && v in values
      ensures !(v <= stream[p..])
    {
      if InSpan(p, spans) { BeforeKeeps(spans, cut, p, 0, |raw|); }
      ScanMisses(raw, 0, values, p);
      MatchAtIff(raw, p, values);
      if !complete {
        var i :| 0 <= i < |values| && values[i] == v;
        assert |v| <= pad;
      }
      StartsInRead(stream, raw, p, v);
    }
  }

  /** Past the limit, the cut keeps only what belongs to the match it was moved behind. */
  lemma PastLimitInSpan(raw: string, values: seq<string>, limit: nat, cut: nat, p: nat)
    requires Redactable(values) && CutFor(raw, values, limit + 1, cut) && limit < p < cut
    ensures InSpan(p, Scan(raw, 0, values))
  {
    var m :| m in Scan(raw, 0, values) && Straddles(m, limit + 1) && cut == m.end;
    assert m.start <= p < m.end;
  }

  /** What the read reaches far enough to see is in the read. */
  lemma StartsInRead(stream: string, raw: string, p: nat, v: string)
    requires raw <= stream && p <= |raw| && (raw == stream || p + |v| <= |raw|)
    ensures v <= stream[p..] ==> v <= raw[p..]
  {
    if v <= stream[p..] && raw != stream {
      assert raw[p..][..|v|] == stream[p..][..|v|];
    }
  }

  /** What is written in each credential's place. */
  function Words(names: map<string, string>): map<string, string> {
    map v | v in names :: "[secret " + names[v] + " redacted]"
  }

  /** pattern.sub: each match replaced, everything else kept in order. */
  function Redact(raw: string, p: nat, values: seq<string>, words: map<string, string>): string
    requires p <= |raw| && (forall v <- values :: |v| > 0 && v in words)
    decreases |raw| - p
  {
    if p == |raw| then []
    else
      var m := MatchAt(raw, p, values);
      MatchAtIff(raw, p, values);
      if m.None? then [raw[p]] + Redact(raw, p + 1, values, words)
      else words[m.value] + Redact(raw, p + |m.value|, values, words)
  }

  /** Ordinary output is unchanged. */
  lemma {:induction false} NothingToRedact(raw: string, p: nat, values: seq<string>, words: map<string, string>)
    requires p <= |raw| && (forall v <- values :: |v| > 0 && v in words) && Scan(raw, p, values) == []
    ensures Redact(raw, p, values, words) == raw[p..]
    decreases |raw| - p
  {
    if p < |raw| { NothingToRedact(raw, p + 1, values, words); }
  }

  /** One after another between `from` and `to`. */
  predicate Chained(spans: seq<Span>, from: nat, to: nat) {
    if spans == [] then from <= to
    else from <= spans[0].start <= spans[0].end && Chained(spans[1..], spans[0].end, to)
  }

  lemma {:induction false} ChainedEnds(spans: seq<Span>, from: nat, to: nat)
    requires Chained(spans, from, to)
    ensures from <= to
  {
    if spans != [] { ChainedEnds(spans[1..], spans[0].end, to); }
  }

  /** `raw` from `from` on, cut at the ends of the spans, with `stands` in the spans' places. */
  function Pieced(raw: string, from: nat, spans: seq<Span>, stands: seq<string>): string
    requires Chained(spans, from, |raw|) && |stands| == |spans|
    decreases spans
  {
    if spans == [] then raw[from..]
    else
      ChainedEnds(spans[1..], spans[0].end, |raw|);
      raw[from..spans[0].start] + stands[0] + Pieced(raw, spans[0].end, spans[1..], stands[1..])
  }

  /** Every span holds a credential, and its word stands for it. */
  predicate Named(raw: string, spans: seq<Span>, words: map<string, string>, stands: seq<string>) {
    && |stands| == |spans|
    && forall k :: 0 <= k < |spans| ==>
         && spans[k].start <= spans[k].end <= |raw|
         && var v := raw[spans[k].start..spans[k].end];
            v in words && stands[k] == words[v]
  }

  /** Every span holds a credential, and what stands for it says its name. */
  predicate Told(raw: string, spans: seq<Span>, names: map<string, string>, stands: seq<string>) {
    && |stands| == |spans|
    && forall k :: 0 <= k < |spans| ==>
         && spans[k].start <= spans[k].end <= |raw|
         && var v := raw[spans[k].start..spans[k].end];
            v in names && stands[k] == "[secret " + names[v] + " redacted]"
  }

  lemma NamedTells(raw: string, spans: seq<Span>, names: map<string, string>, stands: seq<string>)
    requires Named(raw, spans, Words(names), stands)
    ensures Told(raw, spans, names, stands)
  {
  }

  /** `text` is `raw` with nothing but its matches replaced: what is between them stays, in order, and
      in each one's place is the name of the credential it is. */
  ghost predicate Replaced(raw: string, values: seq<string>, names: map<string, string>, text: string)
    requires forall v <- values :: |v| > 0
  {
    var spans := Scan(raw, 0, values);
    && Chained(spans, 0, |raw|)
    && exists stands :: Told(raw, spans, names, stands) && text == Pieced(raw, 0, spans, stands)
  }

  /** `out` is what `stands` makes of `raw` from `p` on. */
  predicate MadeOf(raw: string, p: nat, spans: seq<Span>, words: map<string, string>, stands: seq<string>,
                   out: string)
  {
    Chained(spans, p, |raw|) && Named(raw, spans, words, stands) && out == Pieced(raw, p, spans, stands)
  }

  lemma {:induction false} RedactPieces(raw: string, p: nat, values: seq<string>, words: map<string, string>)
    returns (stands: seq<string>)
    requires p <= |raw| && forall v <- values :: |v| > 0 && v in words
    ensures MadeOf(raw, p, Scan(raw, p, values), words, stands, Redact(raw, p, values, words))
    decreases |raw| - p
  {
    if p == |raw| {
      stands := [];
      AtEnd(raw, values, words);
    } else if MatchAt(raw, p, values).None? {
      stands := RedactPieces(raw, p + 1, values, words);
      AtMiss(raw, p, values, words);
      MadeOfMiss(raw, p, Scan(raw, p, values), words, stands, Redact(raw, p + 1, values, words),
                 Redact(raw, p, values, words));
    } else {
      var v := MatchAt(raw, p, values).value;
      AtMatch(raw, p, values, words, v);
      var rest := RedactPieces(raw, p + |v|, values, words);
      stands := [words[v]] + rest;
      MadeOfMatch(raw, p, v, Scan(raw, p + |v|, values), words, rest, Redact(raw, p + |v|, values, words),
                  Scan(raw, p, values), Redact(raw, p, values, words));
    }
  }

  lemma AtEnd(raw: string, values: seq<string>, words: map<string, string>)
    requires forall w <- values :: |w| > 0 && w in words
    ensures MadeOf(raw, |raw|, Scan(raw, |raw|, values), words, [], Redact(raw, |raw|, values, words))
  {
  }

  lemma MadeOfMiss(raw: string, p: nat, spans: seq<Span>, words: map<string, string>, stands: seq<string>,
                   out: string, whole: string)
    requires p < |raw| && MadeOf(raw, p + 1, spans, words, stands, out) && whole == [raw[p]] + out
    ensures MadeOf(raw, p, spans, words, stands, whole)
  {
    PiecedEarlier(raw, p, spans, stands);
  }

  lemma AtMiss(raw: string, p: nat, values: seq<string>, words: map<string, string>)
    requires p < |raw| && MatchAt(raw, p, values).None? && forall w <- values :: |w| > 0 && w in words
    ensures Scan(raw, p, values) == Scan(raw, p + 1, values)
    ensures Redact(raw, p, values, words) == [raw[p]] + Redact(raw, p + 1, values, words)
  {
  }

  lemma MadeOfMatch(raw: string, p: nat, v: string, spans: seq<Span>, words: map<string, string>, stands: seq<string>,
                    out: string, all: seq<Span>, whole: string)
    requires p + |v| <= |raw| && raw[p..p + |v|] == v && v in words
    requires MadeOf(raw, p + |v|, spans, words, stands, out)
    requires all == [Span(p, p + |v|)] + spans && whole == words[v] + out
    ensures MadeOf(raw, p, all, words, [words[v]] + stands, whole)
  {
    PiecedMatch(raw, p, v, spans, words[v], stands);
    NamedMatch(raw, p, v, spans, words, stands);
  }

  lemma AtMatch(raw: string, p: nat, values: seq<string>, words: map<string, string>, v: string)
    requires p < |raw| && MatchAt(raw, p, values) == Some(v) && forall w <- values :: |w| > 0 && w in words
    ensures v in words && |v| > 0 && p + |v| <= |raw| && raw[p..p + |v|] == v
    ensures Scan(raw, p, values) == [Span(p, p + |v|)] + Scan(raw, p + |v|, values)
    ensures Redact(raw, p, values, words) == words[v] + Redact(raw, p + |v|, values, words)
  {
    MatchAtIff(raw, p, values);
  }

  lemma PiecedMatch(raw: string, p: nat, v: string, spans: seq<Span>, stand: string, stands: seq<string>)
    requires p + |v| <= |raw| && Chained(spans, p + |v|, |raw|) && |stands| == |spans|
    ensures Chained([Span(p, p + |v|)] + spans, p, |raw|)
    ensures Pieced(raw, p, [Span(p, p + |v|)] + spans, [stand] + stands)
         == stand + Pieced(raw, p + |v|, spans, stands)
  {
    var (all, texts) := ([Span(p, p + |v|)] + spans, [stand] + stands);
    assert all[1..] == spans && texts[1..] == stands;
    var rest := Pieced(raw, p + |v|, spans, stands);
    assert Pieced(raw, p, all, texts) == raw[p..p] + stand + rest;
    Regroup([], raw[p..p], stand, rest);
    assert raw[p..p] + (stand + rest) == stand + rest;
  }

  lemma NamedMatch(raw: string, p: nat, v: string, spans: seq<Span>, words: map<string, string>, stands: seq<string>)
    requires p + |v| <= |raw| && raw[p..p + |v|] == v && v in words && Named(raw, spans, words, stands)
    ensures Named(raw, [Span(p, p + |v|)] + spans, words, [words[v]] + stands)
  {
  }

  lemma Regroup(a: string, b: string, c: string, d: string)
    ensures (a + b) + c + d == a + (b + c + d)
  {
  }

  lemma PiecedEarlier(raw: string, p: nat, spans: seq<Span>, stands: seq<string>)
    requires p < |raw| && Chained(spans, p + 1, |raw|) && |stands| == |spans|
    ensures Chained(spans, p, |raw|)
    ensures Pieced(raw, p, spans, stands) == [raw[p]] + Pieced(raw, p + 1, spans, stands)
  {
    if spans == [] {
      assert raw[p..] == [raw[p]] + raw[p + 1..];
    } else {
      ChainedEnds(spans[1..], spans[0].end, |raw|);
      var (front, rest) := (raw[p + 1..spans[0].start], Pieced(raw, spans[0].end, spans[1..], stands[1..]));
      assert raw[p..spans[0].start] == [raw[p]] + front;
      Regroup([raw[p]], front, stands[0], rest);
    }
  }

  // ---------------------------------------------------------------------- whole occurrences

  /** Each span is the match at its start. */
  lemma {:induction false} ScanMatches(raw: string, p: nat, values: seq<string>, m: Span)
    requires p <= |raw| && (forall v <- values :: |v| > 0) && m in Scan(raw, p, values)
    ensures m.start <= |raw| && MatchAt(raw, m.start, values).Some?
    ensures m.end == m.start + |MatchAt(raw, m.start, values).value|
    decreases |raw| - p
  {
    MatchAtIff(raw, p, values);
    var first := MatchAt(raw, p, values);
    if first.None? {
      ScanMatches(raw, p + 1, values, m);
    } else if m != Span(p, p + |first.value|) {
      ScanMatches(raw, p + |first.value|, values, m);
    }
  }

  /** An occurrence of a credential is inside one of the pieces that are replaced exactly when it does
      not start inside an earlier match that ends before it does; otherwise its tail is left over. */
  lemma ReplacedWholeIff(raw: string, p: nat, values: seq<string>, q: nat, v: string)
    requires LongestFirst(values) && (forall w <- values :: |w| > 0)
    requires p <= q < |raw| && v in values && v <= raw[q..]
    ensures (exists m <- Scan(raw, p, values) :: m.start <= q && q + |v| <= m.end) <==>
            !exists m <- Scan(raw, p, values) :: m.start < q < m.end < q + |v|
  {
    MatchAtIff(raw, q, values);
    if !InSpan(q, Scan(raw, p, values)) { ScanMisses(raw, p, values, q); }
    var m :| m in Scan(raw, p, values) && m.start <= q < m.end;
    ScanMatches(raw, p, values, m);
    if m.start == q { MatchIsLongest(raw, q, values, v); }
    ScanOrdered(raw, p, values);
    forall n | n in Scan(raw, p, values) && n.start <= q < n.end ensures n == m {
      OneSpan(Scan(raw, p, values), p, |raw|, m, n, q);
    }
  }

  /** No two spans share a position. */
  lemma OneSpan(spans: seq<Span>, from: nat, to: nat, m: Span, n: Span, q: nat)
    requires Ordered(spans, from, to) && m in spans && n in spans
    requires m.start <= q < m.end && n.start <= q < n.end
    ensures m == n
  {
    var i :| 0 <= i < |spans| && spans[i] == m;
    var k :| 0 <= k < |spans| && spans[k] == n;
    assert i == k;
  }

  /** Two credentials that overlap, written over one another: the tail of the second is left. */
  lemma OverlapLeavesTail(a: string, b: string, c: string, names: map<string, string>)
    requires |a| >= |c| > 0 && |b| > 0 && a + b in names && b + c in names
    ensures LongestFirst([a + b, b + c]) && b + c <= (a + b + c)[|a|..]
    ensures Redact(a + b + c, 0, [a + b, b + c], Words(names)) == "[secret " + names[a + b] + " redacted]" + c
  {
    var raw := a + b + c;
    assert raw == (a + b) + c && raw[|a|..] == b + c;
    FirstOfTwo(a + b, b + c, c, Words(names));
  }

  lemma FirstOfTwo(u: string, v: string, c: string, words: map<string, string>)
    requires |u| > |c| && |v| > |c| && u in words && v in words
    ensures Redact(u + c, 0, [u, v], words) == words[u] + c
  {
    assert (u + c)[|u|..] == c;
    FirstMatches(u + c, u, [v]);
    assert [u] + [v] == [u, v];
    ShortTail(u + c, |u|, [u, v]);
    AtMatch(u + c, 0, [u, v], words, u);
    NothingToRedact(u + c, |u|, [u, v], words);
  }

  lemma FirstMatches(raw: string, v: string, others: seq<string>)
    requires v <= raw
    ensures MatchAt(raw, 0, [v] + others) == Some(v)
  {
    assert raw[0..] == raw;
  }

  lemma {:induction false} ShortTail(raw: string, p: nat, values: seq<string>)
    requires p <= |raw| && (forall v <- values :: |v| > |raw| - p) && forall v <- values :: |v| > 0
    ensures Scan(raw, p, values) == []
    decreases |raw| - p
  {
    if p < |raw| {
      MatchAtIff(raw, p, values);
      ShortTail(raw, p + 1, values);
    }
  }

  // ---------------------------------------------------------------------- the envelope

  function HexDigit(n: nat): char
    requires n < 16
  {
    if n < 10 then ('0' as int + n) as char else ('a' as int + n - 10) as char
  }

  function Unit(n: nat): string
    requires n < 0x10000
  {
    ['\\', 'u', HexDigit(n / 0x1000), HexDigit(n / 0x100 % 16), HexDigit(n / 16 % 16), HexDigit(n % 16)]
  }

  /** The surrogates of a character past the first plane. */
  function Pair(n: nat): (e: string)
    ensures |e| == 12
  {
    Unit(0xd800 + n / 0x400 % 0x400) + Unit(0xdc00 + n % 0x400)
  }

  /** One character as json.dumps writes it with ensure_ascii (section 7 of RFC 8259). */
  function EscapeChar(c: char): (e: string)
    ensures |e| >= 1
  {
    if c == '\"' then "\\\"" else if c == '\\' then "\\\\"
    else if c == '\n' then "\\n" else if c == '\r' then "\\r" else if c == '\t' then "\\t"
    else if c as int == 12 then "\\f" else if c as int == 8 then "\\b"
    else if ' ' <= c <= '~' then [c]
    else if c as int < 0x10000 then Unit(c as int)
    else Pair(c as int - 0x10000)
  }

  function Escape(s: string): string {
    if s == [] then [] else EscapeChar(s[0]) + Escape(s[1..])
  }

  function Encode(text: string, limit: nat, diagnostic: string, count: nat): string {
    "{\"capture_truncated\":true,\"complete\":false,\"capture_limit_chars\":" + Decimal(limit)
    + ",\"diagnostic\":\"" + Escape(diagnostic)
    + "\",\"preview\":\"" + Escape(text[..Min(count, |text|)]) + "\"}"
  }

  // what a reader of JSON makes of it

  function HexValue(c: char): Option<nat> {
    if '0' <= c <= '9' then Some(c as int - '0' as int)
    else if 'a' <= c <= 'f' then Some(c as int - 'a' as int + 10)
    else None
  }

  /** The code unit that six characters spell. */
  function UnitValue(e: string): Option<nat> {
    if |e| < 6 || e[0] != '\\' || e[1] != 'u' then None
    else
      var (a, b, c, d) := (HexValue(e[2]), HexValue(e[3]), HexValue(e[4]), HexValue(e[5]));
      if a.None? || b.None? || c.None? || d.None? then None
      else Some(0x1000 * a.value + 0x100 * b.value + 0x10 * c.value + d.value)
  }

  /** The first character of a JSON string's inside, and how much of it was read. */
  function ReadChar(e: string): Option<(char, nat)> {
    if e == "" || e[0] == '\"' || e[0] < ' ' then None
    else if e[0] != '\\' then Some((e[0], 1))
    else if |e| < 2 then None
    else if e[1] == '\"' || e[1] == '\\' || e[1] == '/' then Some((e[1], 2))
    else if e[1] == 'n' then Some(('\n', 2))
    else if e[1] == 'r' then Some(('\r', 2))
    else if e[1] == 't' then Some(('\t', 2))
    else if e[1] == 'f' then Some((12 as char, 2))
    else if e[1] == 'b' then Some((8 as char, 2))
    else
      var u := UnitValue(e);
      if u.None? || u.value >= 0x10000 then None
      else if !(0xd800 <= u.value < 0xe000) then Some((u.value as char, 6))
      else
        var v := UnitValue(e[6..]);
        if v.None? || u.value >= 0xdc00 || !(0xdc00 <= v.value < 0xe000) then None
        else Some(((0x10000 + 0x400 * (u.value - 0xd800) + (v.value - 0xdc00)) as char, 12))
  }

  /** The text that the inside of a JSON string stands for; None when it is not one. */
  function ReadEscaped(e: string): Option<string> {
    if e == "" then Some("")
    else
      var c := ReadChar(e);
      if c.None? || c.value.1 == 0 || c.value.1 > |e| then None
      else
        var rest := ReadEscaped(e[c.value.1..]);
        if rest.None? then None else Some([c.value.0] + rest.value)
  }

  lemma HexRead(n: nat)
    requires n < 16
    ensures HexValue(HexDigit(n)) == Some(n)
  {
  }

  lemma HexParts(n: nat)
    requires n < 0x10000
    ensures n == 0x1000 * (n / 0x1000) + 0x100 * (n / 0x100 % 16) + 0x10 * (n / 16 % 16) + n % 16
    ensures n / 0x1000 < 16
  {
    var (a, b) := (n / 16, n / 0x100);
    assert b == a / 16 && n / 0x1000 == b / 16;
  }

  lemma UnitRead(n: nat, rest: string)
    requires n < 0x10000
    ensures UnitValue(Unit(n) + rest) == Some(n)
  {
    HexParts(n);
    var (a, b, c, d) := (n / 0x1000, n / 0x100 % 16, n / 16 % 16, n % 16);
    HexRead(a); HexRead(b); HexRead(c); HexRead(d);
    UnitSpells(HexDigit(a), HexDigit(b), HexDigit(c), HexDigit(d), rest);
  }

  lemma UnitSpells(a: char, b: char, c: char, d: char, rest: string)
    requires HexValue(a).Some? && HexValue(b).Some? && HexValue(c).Some? && HexValue(d).Some?
    ensures UnitValue(['\\', 'u', a, b, c, d] + rest)
         == Some(0x1000 * HexValue(a).value + 0x100 * HexValue(b).value + 0x10 * HexValue(c).value + HexValue(d).value)
  {
  }

  lemma PairSpells(e: string, high: nat, low: nat)
    requires |e| >= 6 && e[0] == '\\' && e[1] == 'u' && UnitValue(e) == Some(high) && UnitValue(e[6..]) == Some(low)
    requires 0xd800 <= high < 0xdc00 <= low < 0xe000
    ensures ReadChar(e) == Some(((0x10000 + 0x400 * (high - 0xd800) + (low - 0xdc00)) as char, 12))
  {
  }

  lemma PairParts(n: nat)
    requires n < 0x100000
    ensures n / 0x400 % 0x400 == n / 0x400 < 0x400 && n == 0x400 * (n / 0x400) + n % 0x400
  {
  }

  lemma PairRead(n: nat, rest: string)
    requires n < 0x100000
    ensures Reads(Pair(n), (0x10000 + n) as char, rest)
  {
    PairParts(n);
    var (high, low) := (0xd800 + n / 0x400 % 0x400, 0xdc00 + n % 0x400);
    UnitSpelt(high);
    UnitSpelt(low);
    UnitsRead(Unit(high), Unit(low), high, low, Pair(n), (0x10000 + n) as char, rest);
  }

  /** Whatever follows it, the unit reads as this. */
  ghost predicate Spelt(u: string, n: nat) {
    |u| == 6 && u[0] == '\\' && u[1] == 'u' && forall rest: string :: UnitValue(u + rest) == Some(n)
  }

  lemma UnitSpelt(n: nat)
    requires n < 0x10000
    ensures Spelt(Unit(n), n)
  {
    forall rest: string ensures UnitValue(Unit(n) + rest) == Some(n) { UnitRead(n, rest); }
  }

  lemma UnitsRead(u: string, v: string, high: nat, low: nat, e: string, c: char, rest: string)
    requires Spelt(u, high) && Spelt(v, low) && e == u + v && 0xd800 <= high < 0xdc00 <= low < 0xe000
    requires c as int == 0x10000 + 0x400 * (high - 0xd800) + (low - 0xdc00)
    ensures Reads(e, c, rest)
  {
    AfterUnit(u, v, rest);
    PairSpells(u + v + rest, high, low);
  }

  lemma AfterUnit(u: string, v: string, rest: string)
    requires |u| == 6
    ensures u + v + rest == u + (v + rest) && (u + v + rest)[6..] == v + rest
    ensures (u + v + rest)[0] == u[0] && (u + v + rest)[1] == u[1]
  {
  }

  lemma UnitCharRead(c: char, rest: string)
    requires c as int < 0x10000
    ensures Reads(Unit(c as int), c, rest)
  {
    UnitRead(c as int, rest);
    var e := Unit(c as int) + rest;
    assert e[0] == '\\' && e[1] == 'u';
  }

  predicate Reads(e: string, c: char, rest: string) {
    ReadChar(e + rest) == Some((c, |e|))
  }

  lemma EscapedLong(c: char)
    requires !Shortened(c)
    ensures EscapeChar(c) == if c as int < 0x10000 then Unit(c as int) else Pair(c as int - 0x10000)
  {
  }

  lemma ShortRead(c: char, rest: string)
    requires Shortened(c)
    ensures Reads(EscapeChar(c), c, rest)
  {
  }

  lemma PairCharRead(c: char, rest: string)
    requires c as int >= 0x10000
    ensures Reads(Pair(c as int - 0x10000), c, rest)
  {
    PairRead(c as int - 0x10000, rest);
  }

  lemma CharRead(c: char, rest: string)
    ensures Reads(EscapeChar(c), c, rest)
  {
    if Shortened(c) {
      ShortRead(c, rest);
    } else {
      EscapedLong(c);
      if c as int < 0x10000 { UnitCharRead(c, rest); } else { PairCharRead(c, rest); }
    }
  }

  /** Written in one or two characters. */
  predicate Shortened(c: char) {
    ' ' <= c <= '~' || c == '\n' || c == '\r' || c == '\t' || c as int == 12 || c as int == 8
  }

  /** Whatever was written is what is read. */
  lemma {:induction false} EscapedReads(s: string)
    ensures ReadEscaped(Escape(s)) == Some(s)
  {
    if s != [] {
      var (c, rest) := (EscapeChar(s[0]), Escape(s[1..]));
      CharRead(s[0], rest);
      EscapedReads(s[1..]);
      assert (c + rest)[|c|..] == rest;
      assert [s[0]] + s[1..] == s;
    }
  }

  /** The number that decimal digits spell. */
  function Number(digits: string): nat {
    if digits == "" then 0
    else
      var d := digits[|digits| - 1];
      10 * Number(digits[..|digits| - 1]) + if '0' <= d <= '9' then d as int - '0' as int else 0
  }

  lemma {:induction false} DigitsRead(n: nat)
    ensures Number(Decimal(n)) == n && Decimal(n) != "" && forall c <- Decimal(n) :: '0' <= c <= '9'
  {
    if n >= 10 {
      DigitsRead(n / 10);
      var d := Decimal(n / 10);
      assert (d + ["0123456789"[n % 10]])[..|d|] == d;
    } else {
      assert Decimal(n)[..0] == "";
    }
  }

  /** The envelope is the JSON object that says what was lost, how much was allowed, the diagnostic and
      the preview. */
  lemma EnvelopeSays(text: string, limit: nat, diagnostic: string, count: nat)
    ensures exists number, note, preview ::
      && Encode(text, limit, diagnostic, count)
         == "{\"capture_truncated\":true,\"complete\":false,\"capture_limit_chars\":" + number
            + ",\"diagnostic\":\"" + note + "\",\"preview\":\"" + preview + "\"}"
      && Number(number) == limit && ReadEscaped(note) == Some(diagnostic)
      && ReadEscaped(preview) == Some(text[..if count < |text| then count else |text|])
  {
    var number, note, preview := Decimal(limit), Escape(diagnostic), Escape(text[..Min(count, |text|)]);
    DigitsRead(limit);
    EscapedReads(diagnostic);
    EscapedReads(text[..Min(count, |text|)]);
  }

  lemma {:induction false} EscapeConcat(a: string, b: string)
    ensures Escape(a + b) == Escape(a) + Escape(b)
  {
    if a == [] {
      assert a + b == b;
    } else {
      assert (a + b)[1..] == a[1..] + b;
      EscapeConcat(a[1..], b);
    }
  }

  lemma {:induction false} EscapeGrows(s: string)
    ensures |Escape(s)| >= |s|
  {
    if s != [] { EscapeGrows(s[1..]); }
  }

  /** A longer preview makes a longer envelope, and an envelope is longer than its preview. */
  lemma EncodeGrows(text: string, limit: nat, diagnostic: string, a: nat, b: nat)
    requires a <= b
    ensures |Encode(text, limit, diagnostic, a)| <= |Encode(text, limit, diagnostic, b)|
    ensures |Encode(text, limit, diagnostic, a)| > Min(a, |text|)
  {
    var (p, q) := (text[..Min(a, |text|)], text[..Min(b, |text|)]);
    assert q == p + q[|p|..];
    EscapeConcat(p, q[|p|..]);
    EscapeGrows(p);
  }

  predicate Fits(text: string, limit: nat, diagnostic: string, count: nat) {
    |Encode(text, limit, diagnostic, count)| <= limit
  }

  /** No preview that is longer fits. */
  predicate LongestFit(text: string, limit: nat, diagnostic: string, count: nat) {
    && Fits(text, limit, diagnostic, count)
    && forall n :: 0 <= n <= |text| && Fits(text, limit, diagnostic, n) ==> n <= count
  }

  method Envelope(text: string, limit: nat, diagnostic: string) returns (count: nat)
    requires Fits(text, limit, diagnostic, 0)
    ensures LongestFit(text, limit, diagnostic, count)
  {
    var low, high := 0, limit;
    while low < high
      invariant 0 <= low <= high <= limit && Fits(text, limit, diagnostic, low)
      invariant forall k :: high < k <= limit ==> !Fits(text, limit, diagnostic, k)
    {
      var mid := (low + high + 1) / 2;
      if |Encode(text, limit, diagnostic, mid)| <= limit {
        low := mid;
      } else {
        forall k | mid <= k <= limit ensures !Fits(text, limit, diagnostic, k) {
          EncodeGrows(text, limit, diagnostic, mid, k);
        }
        high := mid - 1;
      }
    }
    count := low;
    forall n | 0 <= n <= |text| && Fits(text, limit, diagnostic, n) ensures n <= count {
      EncodeGrows(text, limit, diagnostic, n, n);
    }
  }

  // ---------------------------------------------------------------------- read_capped

  function Inserted(values: seq<string>, v: string): seq<string> {
    if values == [] || |values[0]| < |v| then [v] + values else [values[0]] + Inserted(values[1..], v)
  }

  lemma {:induction false} InsertedOk(values: seq<string>, v: string)
    requires LongestFirst(values)
    ensures LongestFirst(Inserted(values, v))
    ensures forall u :: u in Inserted(values, v) <==> u in values || u == v
  {
    if values != [] && |values[0]| >= |v| {
      InsertedOk(values[1..], v);
      var rest := Inserted(values[1..], v);
      assert values == [values[0]] + values[1..];
      forall k | 0 <= k < |rest| ensures |values[0]| >= |rest[k]| {
        assert rest[k] in rest;
        if rest[k] in values[1..] {
          var i :| 0 <= i < |values[1..]| && values[1..][i] == rest[k];
          assert values[i + 1] == rest[k];
        }
      }
    }
  }

  /** The redactable values longest first, and the name each is replaced under: the last one given. */
  method SecretPattern(secrets: seq<(string, string)>)
    returns (values: seq<string>, names: map<string, string>)
    ensures Redactable(values)
    ensures forall v :: v in values <==> v in names
    ensures forall v :: v in names <==> Given(secrets, |secrets|, v)
    ensures forall v :: v in names ==> NamedBy(secrets, |secrets|, v, names[v])
  {
    values, names := [], map[];
    for n := 0 to |secrets|
      invariant Redactable(values)
      invariant forall v :: v in values <==> v in names
      invariant forall v :: v in names <==> Given(secrets, n, v)
      invariant forall v :: v in names ==> NamedBy(secrets, n, v, names[v])
    {
      var (name, value) := secrets[n];
      if |value| >= REDACT_MIN_CHARS {
        if value !in names {
          InsertedOk(values, value);
          values := Inserted(values, value);
        }
        names := names[value := name];
      }
      forall v | v in names ensures NamedBy(secrets, n + 1, v, names[v]) {
        NamedNext(secrets, n, v, names[v]);
      }
    }
  }

  /** Long enough to be looked for, and among the first `n`. */
  predicate Given(secrets: seq<(string, string)>, n: nat, v: string)
    requires n <= |secrets|
  {
    |v| >= 8 && exists i :: 0 <= i < n && secrets[i].1 == v
  }

  /** `name` is the one the last of them with this value has. */
  predicate NamedBy(secrets: seq<(string, string)>, n: nat, v: string, name: string)
    requires n <= |secrets|
  {
    exists i :: 0 <= i < n && secrets[i] == (name, v) && forall k :: i < k < n ==> secrets[k].1 != v
  }

  lemma NamedNext(secrets: seq<(string, string)>, n: nat, v: string, name: string)
    requires n < |secrets|
    requires if secrets[n].1 == v then secrets[n].0 == name else NamedBy(secrets, n, v, name)
    ensures NamedBy(secrets, n + 1, v, name)
  {
    if secrets[n].1 == v {
      assert secrets[n] == (name, v);
    } else {
      var i :| 0 <= i < n && secrets[i] == (name, v) && forall k :: i < k < n ==> secrets[k].1 != v;
      assert forall k :: i < k < n + 1 ==> secrets[k].1 != v;
    }
  }

  datatype Captured =
    | Whole(text: string)
    | Truncated(text: string)
    | LimitTooSmall            // ValueError

  /** The text the limit is applied to: the redacted read, up to a cut that splits no credential and
      leaves none of the stream's unreplaced. */
  ghost predicate Seen(stream: string, limit: nat, values: seq<string>, names: map<string, string>, text: string)
    requires Redactable(values)
  {
    if values == [] then text == ReadAhead(stream, limit, 0)
    else
      var pad := |values[0]|;
      var raw := ReadAhead(stream, limit, pad);
      exists cut: nat | cut <= |raw| ::
        && CutFor(raw, values, if |raw| < limit + 1 + pad then |raw| else limit + 1, cut)
        && Replaced(raw[..cut], values, names, text) && Covers(stream, raw, values, cut)
  }

  /** Output that was read whole is replaced whole. */
  lemma WholeSeen(stream: string, limit: nat, values: seq<string>, names: map<string, string>, text: string)
    requires Redactable(values) && values != [] && Seen(stream, limit, values, names, text)
    requires |stream| < limit + 1 + |values[0]|
    ensures Replaced(stream, values, names, text)
  {
    var raw := ReadAhead(stream, limit, |values[0]|);
    var cut: nat :| cut <= |raw| && CutFor(raw, values, |raw|, cut) && Replaced(raw[..cut], values, names, text);
    ScanOrdered(raw, 0, values);
    assert raw == stream && cut == |raw| && raw[..cut] == stream;
  }

  /** One credential in it: what is before it, its name, what is after it. */
  lemma OneSecret(p: string, v: string, s: string, limit: nat, values: seq<string>, names: map<string, string>,
                  text: string)
    requires Redactable(values) && values != [] && Seen(p + v + s, limit, values, names, text)
    requires |p + v + s| < limit + 1 + |values[0]|
    requires Scan(p + v + s, 0, values) == [Span(|p|, |p| + |v|)]
    ensures v in names && text == p + "[secret " + names[v] + " redacted]" + s
  {
    WholeSeen(p + v + s, limit, values, names, text);
    OneReplaced(p, v, s, values, names, text);
  }

  lemma OneReplaced(p: string, v: string, s: string, values: seq<string>, names: map<string, string>, text: string)
    requires (forall u <- values :: |u| > 0) && Replaced(p + v + s, values, names, text)
    requires Scan(p + v + s, 0, values) == [Span(|p|, |p| + |v|)]
    ensures v in names && text == p + "[secret " + names[v] + " redacted]" + s
  {
    var raw, spans := p + v + s, Scan(p + v + s, 0, values);
    var stands :| Told(raw, spans, names, stands) && text == Pieced(raw, 0, spans, stands);
    assert raw[|p|..|p| + |v|] == v && raw[0..|p|] == p && raw[|p| + |v|..] == s;
    assert spans[0] == Span(|p|, |p| + |v|) && spans[1..] == [] && stands[1..] == [];
    assert Pieced(raw, |p| + |v|, [], []) == s;
  }

  /** The read, its cut and the replacement. */
  method SeenText(stream: string, limit: nat, values: seq<string>, names: map<string, string>)
    returns (text: string)
    requires Redactable(values) && forall v <- values :: v in names
    ensures Seen(stream, limit, values, names, text)
  {
    var pad := if values == [] then 0 else |values[0]|;
    var raw := ReadAhead(stream, limit, pad);
    if values == [] { return raw; }
    var start := if |raw| < limit + 1 + pad then |raw| else limit + 1;
    ScanOrdered(raw, 0, values);
    var cut := FindCut(Scan(raw, 0, values), start, 0, |raw|);
    text := Redact(raw[..cut], 0, values, Words(names));
    assert CutFor(raw, values, start, cut);
    ghost var stands := RedactPieces(raw[..cut], 0, values, Words(names));
    NamedTells(raw[..cut], Scan(raw[..cut], 0, values), names, stands);
    assert Replaced(raw[..cut], values, names, text);
    RedactionCovers(stream, limit, values, cut);
  }

  /** `text` is what was seen of the output, `values` and `names` the pattern it was redacted with. */
  method ReadCapped(stream: string, limit: nat, diagnostic: string, secrets: seq<(string, string)>)
    returns (r: Captured, text: string, values: seq<string>, names: map<string, string>)
    ensures Redactable(values) && forall v :: v in values <==> Given(secrets, |secrets|, v)
    ensures forall v <- values :: v in names && NamedBy(secrets, |secrets|, v, names[v])
    ensures Seen(stream, limit, values, names, text)
    ensures r.Whole? <==> |stream| <= limit + (if values == [] then 0 else |values[0]|) && |text| <= limit
    ensures r.Whole? && diagnostic == "" ==> r.text == text
    ensures r.Whole? && diagnostic != "" ==>
              r.text == if text == "" then diagnostic else text + "\n[" + diagnostic + "]"
    ensures r.LimitTooSmall? ==> !Fits(text, limit, diagnostic, 0)
    ensures r.Truncated? ==> |r.text| <= limit
    ensures r.Truncated? ==> exists count: nat :: LongestFit(text, limit, diagnostic, count)
                                                  && r.text == Encode(text, limit, diagnostic, count)
  {
    values, names := SecretPattern(secrets);
    text := SeenText(stream, limit, values, names);
    var pad := if values == [] then 0 else |values[0]|;
    if |ReadAhead(stream, limit, pad)| < limit + 1 + pad && |text| <= limit {
      r := Whole(if diagnostic != "" && text != "" then text + "\n[" + diagnostic + "]"
                 else if diagnostic != "" then diagnostic else text);
      return;
    }
    r := Bounded(text, limit, diagnostic);
  }

  /** The envelope, or the refusal of a limit that no envelope fits. */
  method Bounded(text: string, limit: nat, diagnostic: string) returns (r: Captured)
    ensures r.LimitTooSmall? || r.Truncated?
    ensures r.LimitTooSmall? <==> !Fits(text, limit, diagnostic, 0)
    ensures r.Truncated? ==> |r.text| <= limit && exists count: nat ::
              LongestFit(text, limit, diagnostic, count) && r.text == Encode(text, limit, diagnostic, count)
  {
    if |Encode(text, limit, diagnostic, 0)| > limit {
      r := LimitTooSmall;
      return;
    }
    var count := Envelope(text, limit, diagnostic);
    r := Truncated(Encode(text, limit, diagnostic, count));
  }
}
