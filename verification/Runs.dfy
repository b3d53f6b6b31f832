/** Runs: the visible text cut where a style or a link begins or ends. */
module Runs {
  import opened Text
  import opened Inline

  datatype Run = Run(text: string, styles: set<Style>, url: Option<string>)

  // ----- cuts

  function SpanCuts(spans: seq<Span>): seq<nat> {
    if spans == [] then []
    else SpanCuts(spans[..|spans| - 1]) + [spans[|spans| - 1].start, spans[|spans| - 1].end]
  }

  function LinkCuts(links: seq<Link>): seq<nat> {
    if links == [] then []
    else LinkCuts(links[..|links| - 1]) + [links[|links| - 1].start, links[|links| - 1].end]
  }

  function Retained(cuts: seq<nat>, length: nat): seq<nat> {
    if cuts == [] then []
    else
      var rest, last := Retained(cuts[..|cuts| - 1], length), cuts[|cuts| - 1];
      if last <= length then rest + [last] else rest
  }

  function Inserted(sorted: seq<nat>, cut: nat): seq<nat> {
    if sorted == [] || cut < sorted[0] then [cut] + sorted
    else if cut == sorted[0] then sorted
    else [sorted[0]] + Inserted(sorted[1..], cut)
  }

  /** Sorted, and every value once. */
  function Sorted(cuts: seq<nat>): seq<nat> {
    if cuts == [] then [] else Inserted(Sorted(cuts[..|cuts| - 1]), cuts[|cuts| - 1])
  }

  function Cuts(rich: Rich): seq<nat> {
    Sorted(Retained([0, |rich.text|] + SpanCuts(rich.spans) + LinkCuts(rich.links), |rich.text|))
  }

  // ----- runs

  function StylesOver(spans: seq<Span>, start: nat, end: nat): set<Style> {
    if spans == [] then {}
    else
      var rest, last := StylesOver(spans[..|spans| - 1], start, end), spans[|spans| - 1];
      if last.start <= start && last.end >= end then rest + {last.style} else rest
  }

  function UrlOver(links: seq<Link>, start: nat, end: nat): Option<string> {
    if links == [] then None
    else if links[0].start <= start && links[0].end >= end then Some(links[0].url)
    else UrlOver(links[1..], start, end)
  }

  function RunOver(rich: Rich, start: nat, end: nat): Run
    requires start <= end <= |rich.text|
  {
    Run(rich.text[start..end], StylesOver(rich.spans, start, end), UrlOver(rich.links, start, end))
  }

  function RunsBetween(rich: Rich, cuts: seq<nat>): seq<Run>
    requires AreCuts(cuts, |rich.text|)
  {
    if |cuts| < 2 then []
    else
      var n := |cuts| - 1;
      RunsBetween(rich, cuts[..n]) + [RunOver(rich, cuts[n - 1], cuts[n])]
  }

  function RunsOf(rich: Rich): seq<Run> {
    CutsSpec(rich);
    RunsBetween(rich, Cuts(rich))
  }

  predicate AreCuts(cuts: seq<nat>, length: nat) {
    && (forall i, j :: 0 <= i < j < |cuts| ==> cuts[i] < cuts[j])
    && (forall i :: 0 <= i < |cuts| ==> cuts[i] <= length)
  }

  // ----- the loop

  method CollectCuts(rich: Rich) returns (cuts: seq<nat>)
    ensures cuts == Cuts(rich)
  {
    cuts := [0, |rich.text|];
    for i := 0 to |rich.spans|
      invariant cuts == [0, |rich.text|] + SpanCuts(rich.spans[..i])
    {
      assert rich.spans[..i + 1][..i] == rich.spans[..i];
      cuts := cuts + [rich.spans[i].start, rich.spans[i].end];
    }
    assert rich.spans[..|rich.spans|] == rich.spans;
    ghost var before := cuts;
    for i := 0 to |rich.links|
      invariant cuts == before + LinkCuts(rich.links[..i])
    {
      assert rich.links[..i + 1][..i] == rich.links[..i];
      cuts := cuts + [rich.links[i].start, rich.links[i].end];
    }
    assert rich.links[..|rich.links|] == rich.links;
    cuts := Sorted(Retained(cuts, |rich.text|));
  }

  method CollectRuns(rich: Rich) returns (runs: seq<Run>)
    ensures runs == RunsOf(rich)
  {
    var cuts := CollectCuts(rich);
    CutsSpec(rich);
    runs := [];
    var k := 1;
    while k < |cuts|
      invariant 1 <= k && (k <= |cuts| || |cuts| == 0)
      invariant |cuts| > 0 ==> runs == RunsBetween(rich, cuts[..k])
    {
      assert cuts[..k + 1][..k] == cuts[..k];
      runs := runs + [RunOver(rich, cuts[k - 1], cuts[k])];
      k := k + 1;
    }
    assert |cuts| > 0 ==> cuts[..k] == cuts;
  }

  // ----- the cuts

  predicate Ascends(cuts: seq<nat>) {
    forall i, j :: 0 <= i < j < |cuts| ==> cuts[i] < cuts[j]
  }

  lemma {:induction false} InsertedSpec(sorted: seq<nat>, cut: nat)
    requires Ascends(sorted)
    ensures Ascends(Inserted(sorted, cut))
    ensures forall c :: c in Inserted(sorted, cut) <==> c in sorted || c == cut
  {
    if sorted != [] && cut > sorted[0] {
      var rest := Inserted(sorted[1..], cut);
      InsertedSpec(sorted[1..], cut);
      assert sorted == [sorted[0]] + sorted[1..];
      forall i | 0 <= i < |rest| ensures sorted[0] < rest[i] {
        assert rest[i] in rest;
      }
    }
  }

  lemma {:induction false} SortedSpec(cuts: seq<nat>)
    ensures Ascends(Sorted(cuts))
    ensures forall c :: c in Sorted(cuts) <==> c in cuts
  {
    if cuts != [] {
      SortedSpec(cuts[..|cuts| - 1]);
      InsertedSpec(Sorted(cuts[..|cuts| - 1]), cuts[|cuts| - 1]);
      assert cuts == cuts[..|cuts| - 1] + [cuts[|cuts| - 1]];
    }
  }

  lemma {:induction false} RetainedSpec(cuts: seq<nat>, length: nat)
    ensures forall c :: c in Retained(cuts, length) <==> c in cuts && c <= length
  {
    if cuts != [] {
      RetainedSpec(cuts[..|cuts| - 1], length);
      assert cuts == cuts[..|cuts| - 1] + [cuts[|cuts| - 1]];
    }
  }

  lemma {:induction false} CutsSpec(rich: Rich)
    ensures AreCuts(Cuts(rich), |rich.text|)
    ensures 0 in Cuts(rich) && |rich.text| in Cuts(rich)
    ensures forall c :: c in SpanCuts(rich.spans) + LinkCuts(rich.links) && c <= |rich.text| ==> c in Cuts(rich)
  {
    var all := [0, |rich.text|] + SpanCuts(rich.spans) + LinkCuts(rich.links);
    RetainedSpec(all, |rich.text|);
    SortedSpec(Retained(all, |rich.text|));
    assert all[0] in all && all[1] in all;
    forall i | 0 <= i < |Cuts(rich)| ensures Cuts(rich)[i] <= |rich.text| {
      assert Cuts(rich)[i] in Cuts(rich);
    }
  }

  lemma {:induction false} SpanEdgesAreCuts(spans: seq<Span>, s: Span)
    requires s in spans
    ensures s.start in SpanCuts(spans) && s.end in SpanCuts(spans)
  {
    var n := |spans| - 1;
    assert spans == spans[..n] + [spans[n]];
    if s == spans[n] {
      assert SpanCuts(spans)[|SpanCuts(spans[..n])|] == s.start;
      assert SpanCuts(spans)[|SpanCuts(spans[..n])| + 1] == s.end;
    } else {
      SpanEdgesAreCuts(spans[..n], s);
    }
  }

  lemma {:induction false} LinkEdgesAreCuts(links: seq<Link>, l: Link)
    requires l in links
    ensures l.start in LinkCuts(links) && l.end in LinkCuts(links)
  {
    var n := |links| - 1;
    assert links == links[..n] + [links[n]];
    if l == links[n] {
      assert LinkCuts(links)[|LinkCuts(links[..n])|] == l.start;
      assert LinkCuts(links)[|LinkCuts(links[..n])| + 1] == l.end;
    } else {
      LinkEdgesAreCuts(links[..n], l);
    }
  }

  // ----- what is drawn

  /** One character as it is drawn. */
  datatype Glyph = Glyph(character: char, styles: set<Style>, url: Option<string>)

  /** The reference: a character has the styles of the spans it lies in, and the address of the
      first link it lies in. */
  function UrlAt(links: seq<Link>, p: nat): Option<string> {
    if links == [] then None
    else if links[0].start <= p < links[0].end then Some(links[0].url)
    else UrlAt(links[1..], p)
  }

  function GlyphAt(rich: Rich, p: nat): Glyph
    requires p < |rich.text|
  {
    Glyph(rich.text[p], set s | s in rich.spans && s.start <= p < s.end :: s.style, UrlAt(rich.links, p))
  }

  function GlyphsTo(rich: Rich, end: nat): seq<Glyph>
    requires end <= |rich.text|
  {
    seq(end, p requires 0 <= p < end => GlyphAt(rich, p))
  }

  function Drawn(run: Run): seq<Glyph> {
    seq(|run.text|, p requires 0 <= p < |run.text| => Glyph(run.text[p], run.styles, run.url))
  }

  function DrawnAll(runs: seq<Run>): seq<Glyph> {
    if runs == [] then [] else DrawnAll(runs[..|runs| - 1]) + Drawn(runs[|runs| - 1])
  }

  lemma {:induction false} StylesAreThose(spans: seq<Span>, start: nat, end: nat, p: nat, style: Style)
    requires start <= p < end
    requires forall s :: s in spans ==> (s.start <= start || end <= s.start) && (s.end <= start || end <= s.end)
    ensures style in StylesOver(spans, start, end)
       <==> exists s :: s in spans && s.start <= p < s.end && s.style == style
  {
    if spans != [] {
      var n := |spans| - 1;
      assert spans == spans[..n] + [spans[n]];
      assert spans[n] in spans;
      StylesAreThose(spans[..n], start, end, p, style);
    }
  }

  lemma {:induction false} UrlIsThat(links: seq<Link>, start: nat, end: nat, p: nat)
    requires start <= p < end
    requires forall l :: l in links ==> (l.start <= start || end <= l.start) && (l.end <= start || end <= l.end)
    ensures UrlOver(links, start, end) == UrlAt(links, p)
  {
    if links != [] {
      assert links[0] in links;
      UrlIsThat(links[1..], start, end, p);
    }
  }

  lemma {:induction false} NoEdgeInside(rich: Rich, k: nat, edge: nat)
    requires 0 < k < |Cuts(rich)|
    requires edge in SpanCuts(rich.spans) + LinkCuts(rich.links)
    ensures edge <= Cuts(rich)[k - 1] || Cuts(rich)[k] <= edge
  {
    CutsSpec(rich);
    if edge <= |rich.text| {
      var i :| 0 <= i < |Cuts(rich)| && Cuts(rich)[i] == edge;
    }
  }

  lemma {:induction false} RunDrawsRight(rich: Rich, k: nat, p: nat)
    requires 0 < k < |Cuts(rich)| && Cuts(rich)[k] <= |rich.text|
    requires Cuts(rich)[k - 1] <= p < Cuts(rich)[k]
    ensures var run := RunOver(rich, Cuts(rich)[k - 1], Cuts(rich)[k]);
      Glyph(rich.text[p], run.styles, run.url) == GlyphAt(rich, p)
  {
    var start, end := Cuts(rich)[k - 1], Cuts(rich)[k];
    forall s | s in rich.spans
      ensures (s.start <= start || end <= s.start) && (s.end <= start || end <= s.end)
    {
      SpanEdgesAreCuts(rich.spans, s);
      NoEdgeInside(rich, k, s.start);
      NoEdgeInside(rich, k, s.end);
    }
    forall l | l in rich.links
      ensures (l.start <= start || end <= l.start) && (l.end <= start || end <= l.end)
    {
      LinkEdgesAreCuts(rich.links, l);
      NoEdgeInside(rich, k, l.start);
      NoEdgeInside(rich, k, l.end);
    }
    UrlIsThat(rich.links, start, end, p);
    forall style ensures style in StylesOver(rich.spans, start, end) <==> style in GlyphAt(rich, p).styles {
      StylesAreThose(rich.spans, start, end, p, style);
    }
  }

  lemma {:induction false} NextRunDraws(rich: Rich, k: nat)
    requires 0 < k < |Cuts(rich)| && AreCuts(Cuts(rich), |rich.text|)
    ensures var start, end := Cuts(rich)[k - 1], Cuts(rich)[k];
      start <= end <= |rich.text|
      && GlyphsTo(rich, end) == GlyphsTo(rich, start) + Drawn(RunOver(rich, start, end))
  {
    var start, end := Cuts(rich)[k - 1], Cuts(rich)[k];
    var run := RunOver(rich, start, end);
    forall p | start <= p < end ensures Drawn(run)[p - start] == GlyphAt(rich, p) {
      RunDrawsRight(rich, k, p);
    }
  }

  lemma {:induction false} OneMoreRun(rich: Rich, cuts: seq<nat>, k: nat)
    requires AreCuts(cuts, |rich.text|) && 1 < k <= |cuts|
    ensures RunsBetween(rich, cuts[..k]) == RunsBetween(rich, cuts[..k - 1]) + [RunOver(rich, cuts[k - 2], cuts[k - 1])]
  {
    assert cuts[..k][..k - 1] == cuts[..k - 1];
  }

  lemma {:induction false} DrawnAppends(runs: seq<Run>, run: Run)
    ensures DrawnAll(runs + [run]) == DrawnAll(runs) + Drawn(run)
  {
    assert (runs + [run])[..|runs|] == runs;
  }

  lemma {:induction false} RunsDrawPrefix(rich: Rich, k: nat)
    requires 0 < k <= |Cuts(rich)| && AreCuts(Cuts(rich), |rich.text|) && Cuts(rich)[0] == 0
    ensures DrawnAll(RunsBetween(rich, Cuts(rich)[..k])) == GlyphsTo(rich, Cuts(rich)[k - 1])
  {
    var cuts := Cuts(rich);
    if k > 1 {
      RunsDrawPrefix(rich, k - 1);
      OneMoreRun(rich, cuts, k);
      DrawnAppends(RunsBetween(rich, cuts[..k - 1]), RunOver(rich, cuts[k - 2], cuts[k - 1]));
      NextRunDraws(rich, k - 1);
    } else {
      assert RunsBetween(rich, cuts[..1]) == [];
    }
  }

  /** Drawing the runs one after the other draws every character of the visible text, in order,
      each with the styles of the spans it lies in and the address of its link: no run straddles
      an edge, and nothing is lost or drawn twice. */
  lemma {:induction false} RunsRebuildTheText(rich: Rich)
    ensures DrawnAll(RunsOf(rich)) == GlyphsTo(rich, |rich.text|)
  {
    CutsSpec(rich);
    var cuts := Cuts(rich);
    var last := |cuts| - 1;
    var z :| 0 <= z < |cuts| && cuts[z] == 0;
    var e :| 0 <= e < |cuts| && cuts[e] == |rich.text|;
    RunsDrawPrefix(rich, |cuts|);
    assert cuts[..|cuts|] == cuts;
  }
}
