/**
 * The gdelt_tone_chart tool: the DOC API's tone histogram, renamed from `bin` to `tone`, and a
 * summary splitting the article counts into negative, neutral and positive tone.
 */
module ToneChartTool {
  import opened Wrappers
  import opened Seqs
  import opened Strings
  import opened GdeltTypes
  import opened ToolSchemas
  import opened ToolOutput

  /** The DOC API request: tone-chart mode with the query and time window, nothing else. */
  function Request(p: ToneChartParams): (r: DocRequest)
    ensures r.query == p.query && r.mode == "ToneChart" && r.timespan == Some(p.timespan)
    ensures r.format.None? && r.startdatetime.None? && r.enddatetime.None?
    ensures r.maxrecords.None? && r.sort.None? && r.timelinesmooth.None?
  {
    DocQuery(p.query, "ToneChart", Some(p.timespan), None, None)
  }

  /** The API's bins, or none when the response has no `tonechart`. */
  function Bins(response: DocResponse): seq<ToneBin> {
    response.tonechart.GetOr([])
  }

  /** `bins.map(bin => ({tone: bin.bin, count: bin.count}))`. */
  function Rename(bins: seq<ToneBin>): (chart: seq<ToneChartEntry>)
    ensures |chart| == |bins|
    ensures forall i :: 0 <= i < |bins| ==> chart[i].tone == bins[i].bin && chart[i].count == bins[i].count
  {
    if bins == [] then []
    else [ToneChartEntry(bins[0].bin, bins[0].count)] + Rename(bins[1..])
  }

  predicate IsNegative(e: ToneChartEntry) { e.tone < 0 }
  predicate IsNeutral(e: ToneChartEntry) { e.tone == 0 }
  predicate IsPositive(e: ToneChartEntry) { e.tone > 0 }

  /** `entries.reduce((sum, entry) => sum + entry.count, 0)`: a fold from the left. */
  function SumCounts(entries: seq<ToneChartEntry>): (r: int)
    ensures (forall i :: 0 <= i < |entries| ==> entries[i].count >= 0) ==> r >= 0
    ensures (forall i :: 0 <= i < |entries| ==> entries[i].count == 0) ==> r == 0
  {
    if entries == [] then 0
    else SumCounts(entries[..|entries| - 1]) + entries[|entries| - 1].count
  }

  lemma {:induction false} SumCountsAppend(a: seq<ToneChartEntry>, b: seq<ToneChartEntry>)
    ensures SumCounts(a + b) == SumCounts(a) + SumCounts(b)
  {
    if b == [] {
      assert a + b == a;
    } else {
      var b' := b[..|b| - 1];
      assert (a + b)[..|a + b| - 1] == a + b';
      assert (a + b)[|a + b| - 1] == b[|b| - 1];
      SumCountsAppend(a, b');
    }
  }

  lemma SumCountsCons(e: ToneChartEntry, rest: seq<ToneChartEntry>)
    ensures SumCounts([e] + rest) == e.count + SumCounts(rest)
  {
    SumCountsAppend([e], rest);
    assert [e][..0] == [];
  }

  /** One step of a filtered sum: the first entry adds its count when the filter keeps it. */
  lemma SumFilterCons(e: ToneChartEntry, rest: seq<ToneChartEntry>, p: ToneChartEntry -> bool)
    ensures SumCounts(Filter([e] + rest, p)) == (if p(e) then e.count else 0) + SumCounts(Filter(rest, p))
  {
    assert ([e] + rest)[1..] == rest;
    if p(e) {
      SumCountsCons(e, Filter(rest, p));
    } else {
      assert [] + Filter(rest, p) == Filter(rest, p);
    }
  }

  lemma FilterConsMultiset(e: ToneChartEntry, rest: seq<ToneChartEntry>, p: ToneChartEntry -> bool)
    ensures multiset(Filter([e] + rest, p)) == (if p(e) then multiset{e} else multiset{}) + multiset(Filter(rest, p))
  {
    assert ([e] + rest)[1..] == rest;
  }

  /** The three sign filters split the chart: together they hold each entry exactly once. */
  lemma {:induction false} SignFiltersPartition(chart: seq<ToneChartEntry>)
    ensures multiset(Filter(chart, IsNegative)) + multiset(Filter(chart, IsNeutral)) + multiset(Filter(chart, IsPositive))
         == multiset(chart)
  {
    if chart != [] {
      var e, rest := chart[0], chart[1..];
      assert chart == [e] + rest;
      SignFiltersPartition(rest);
      FilterConsMultiset(e, rest, IsNegative);
      FilterConsMultiset(e, rest, IsNeutral);
      FilterConsMultiset(e, rest, IsPositive);
    }
  }

  /** The three sign groups' counts add up to the sum over the whole chart. */
  lemma {:induction false} SignSumsAddUp(chart: seq<ToneChartEntry>)
    ensures SumCounts(Filter(chart, IsNegative)) + SumCounts(Filter(chart, IsNeutral)) + SumCounts(Filter(chart, IsPositive))
         == SumCounts(chart)
  {
    if chart != [] {
      var e, rest := chart[0], chart[1..];
      assert chart == [e] + rest;
      SignSumsAddUp(rest);
      SumCountsCons(e, rest);
      SumFilterCons(e, rest, IsNegative);
      SumFilterCons(e, rest, IsNeutral);
      SumFilterCons(e, rest, IsPositive);
    }
  }

  /** The summary: each sign group's count; its total is the count of every entry. */
  function Summarize(chart: seq<ToneChartEntry>): (s: ToneSummary)
    ensures s.negative == SumCounts(Filter(chart, IsNegative))
    ensures s.neutral == SumCounts(Filter(chart, IsNeutral))
    ensures s.positive == SumCounts(Filter(chart, IsPositive))
    ensures s.total == SumCounts(chart)
    ensures s.negative + s.neutral + s.positive == s.total
  {
    SignSumsAddUp(chart);
    var negative := SumCounts(Filter(chart, IsNegative));
    var neutral := SumCounts(Filter(chart, IsNeutral));
    var positive := SumCounts(Filter(chart, IsPositive));
    ToneSummary(negative, neutral, positive, negative + neutral + positive)
  }

  function ToneLine(e: ToneChartEntry): string {
    "Tone " + IntToString(e.tone) + ": " + IntToString(e.count) + " articles"
  }

  /** The detailed distribution: one line per chart entry, in chart order. */
  function ToneLines(chart: seq<ToneChartEntry>): (lines: seq<string>)
    ensures |lines| == |chart|
    ensures forall i :: 0 <= i < |chart| ==> lines[i] == ToneLine(chart[i])
  {
    if chart == [] then [] else [ToneLine(chart[0])] + ToneLines(chart[1..])
  }

  /**
   * The text view. `percent(count, total)` stands for `((count / total) * 100).toFixed(1)`,
   * JavaScript floating point which this model leaves abstract.
   */
  function ToneText(query: string, chart: seq<ToneChartEntry>, s: ToneSummary, percent: (int, int) -> string): string {
    "Tone distribution for \"" + query + "\":\n\n" +
    "Negative: " + IntToString(s.negative) + " (" + percent(s.negative, s.total) + "%)\n" +
    "Neutral: " + IntToString(s.neutral) + " (" + percent(s.neutral, s.total) + "%)\n" +
    "Positive: " + IntToString(s.positive) + " (" + percent(s.positive, s.total) + "%)\n\n" +
    "Detailed distribution:\n" + Join(ToneLines(chart), "\n")
  }

  /**
   * The handler after the fetch: the renamed chart, entry for entry in the API's order, and
   * a summary holding each sign group's count and the count of all bins.
   */
  function Handle(p: ToneChartParams, response: DocResponse, percent: (int, int) -> string): (r: ToolResult)
    ensures r.structured.ToneData?
    ensures var bins, chart := Bins(response), r.structured.toneChart;
      |chart| == |bins| &&
      (forall i :: 0 <= i < |bins| ==> chart[i] == ToneChartEntry(bins[i].bin, bins[i].count))
    ensures var chart, s := r.structured.toneChart, r.structured.summary;
      s.negative == SumCounts(Filter(chart, IsNegative)) && s.neutral == SumCounts(Filter(chart, IsNeutral)) &&
      s.positive == SumCounts(Filter(chart, IsPositive))
    ensures r.structured.summary.total == SumCounts(r.structured.toneChart)
    ensures r.structured.summary.negative + r.structured.summary.neutral + r.structured.summary.positive
         == r.structured.summary.total
    ensures r.text == ToneText(p.query, r.structured.toneChart, r.structured.summary, percent)
  {
    var chart := Rename(Bins(response));
    var summary := Summarize(chart);
    ToolResult(ToneText(p.query, chart, summary, percent), ToneData(chart, summary))
  }

  /** A response without a tone chart gives an empty chart and zero counts. */
  lemma MissingChartIsEmpty(p: ToneChartParams, response: DocResponse, percent: (int, int) -> string)
    requires response.tonechart.None?
    ensures Handle(p, response, percent).structured == ToneData([], ToneSummary(0, 0, 0, 0))
  {
  }

  /** Bins at tones -2, 0 and 3 with counts 10, 5 and 5 give 10 negative, 5 neutral, 5 positive of 20. */
  lemma SummaryExample()
    ensures Summarize(Rename([ToneBin(-2, 10, []), ToneBin(0, 5, []), ToneBin(3, 5, [])])) == ToneSummary(10, 5, 5, 20)
  {
    var a, b, c := ToneChartEntry(-2, 10), ToneChartEntry(0, 5), ToneChartEntry(3, 5);
    var chart := Rename([ToneBin(-2, 10, []), ToneBin(0, 5, []), ToneBin(3, 5, [])]);
    assert chart == [a] + ([b] + ([c] + []));
    SignSumsAddUp(chart);
    SumCountsCons(c, []);
    SumCountsCons(b, [c] + []);
    SumCountsCons(a, [b] + ([c] + []));
    SumFilterCons(a, [b] + ([c] + []), IsNegative);
    SumFilterCons(b, [c] + [], IsNegative);
    SumFilterCons(c, [], IsNegative);
    SumFilterCons(a, [b] + ([c] + []), IsNeutral);
    SumFilterCons(b, [c] + [], IsNeutral);
    SumFilterCons(c, [], IsNeutral);
  }
}
