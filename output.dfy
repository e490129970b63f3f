/**
 * What a tool handler returns: a text summary and the structured payload of its tool, and
 * the pieces the text views share (numbered blocks, the truncation note).
 */
module ToolOutput {
  import opened Seqs
  import opened Strings
  import opened GdeltTypes
  import opened ToolSchemas

  datatype ToneSummary = ToneSummary(negative: int, neutral: int, positive: int, total: int)

  /** The `structuredContent` of each tool. */
  datatype Payload =
    | ArticleList(articles: seq<Article>, count: nat)
    | TimelineData(timeline: seq<TimelineEntry>, timelineType: TimelineType, count: nat)
    | ToneData(toneChart: seq<ToneChartEntry>, summary: ToneSummary)
    | FeatureCollection(kind: string, features: seq<GeoFeature>, count: nat)
    | ImageList(articles: seq<Article>, images: seq<ImageInfo>, count: nat)
    | MonitorData(articles: seq<Article>, count: nat, interval: Interval, query: string)

  /** A handler's result: one text content item and the structured content. */
  datatype ToolResult = ToolResult(text: string, structured: Payload)

  /** `response.articles || []`. */
  function ResponseArticles(response: DocResponse): seq<Article> {
    response.articles.GetOr([])
  }

  /** The note a truncated text view ends with. */
  const MoreNote: string := "\n\n... and more (see structured data)"

  lemma MoreNoteEndsWithParenthesis()
    ensures |MoreNote| > 0 && MoreNote[|MoreNote| - 1] == ')'
  {
  }

  /** `items.map((x, i) => block(i + 1, x))`: each item's block, numbered from 1, in order. */
  function Numbered<T>(items: seq<T>, block: (nat, T) -> string): (blocks: seq<string>)
    ensures |blocks| == |items|
    ensures forall i :: 0 <= i < |items| ==> blocks[i] == block(i + 1, items[i])
  {
    seq(|items|, i requires 0 <= i < |items| => block(i + 1, items[i]))
  }

  /**
   * `items.slice(0, limit).map(...).join('\n\n')` followed by the note when there are more
   * than limit items: the text view of geo search and monitor.
   */
  function Truncated<T>(items: seq<T>, limit: nat, block: (nat, T) -> string): (r: string)
    ensures |items| > limit ==> EndsWith(r, MoreNote)
    ensures |items| <= limit ==> r == Join(Numbered(items, block), "\n\n")
  {
    var shown := Join(Numbered(items[..Min(|items|, limit)], block), "\n\n");
    EndsWithAppended(shown, MoreNote);
    if |items| <= limit then assert items[..Min(|items|, limit)] == items; shown
    else shown + MoreNote
  }

  /** The truncated view shows the first min(n, limit) items, and the note exactly when some are hidden. */
  lemma TruncatedShowsPrefix<T>(items: seq<T>, limit: nat, block: (nat, T) -> string)
    ensures var shown := Numbered(items[..Min(|items|, limit)], block);
      |shown| == Min(|items|, limit) &&
      (forall i :: 0 <= i < |shown| ==> shown[i] == block(i + 1, items[i])) &&
      (|items| > limit ==> Truncated(items, limit, block) == Join(shown, "\n\n") + MoreNote) &&
      (|items| <= limit ==> Truncated(items, limit, block) == Join(Numbered(items, block), "\n\n"))
  {
    if |items| <= limit {
      assert items[..Min(|items|, limit)] == items;
    }
  }
}
