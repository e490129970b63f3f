/**
 * The gdelt_monitor tool: the most recent articles for a query within a short interval, with a
 * text view of the first ten.
 */
module MonitorTool {
  import opened Wrappers
  import opened Seqs
  import opened Strings
  import opened GdeltTypes
  import opened GdeltUtils
  import opened ToolSchemas
  import opened ToolOutput

  /** How many articles the text view lists. */
  const TextLimit: nat := 10

  /** The monitor always asks for the largest article list the DOC API allows. */
  const MonitorMaxRecords: int := 250

  /**
   * The DOC API request: article-list mode over the interval as time window, newest first,
   * with the largest record limit; only the query and the interval vary.
   */
  function Request(p: MonitorParams): (r: DocRequest)
    ensures r.query == p.query && r.mode == "ArtList" && r.timespan == Some(IntervalName(p.interval))
    ensures r.maxrecords == Some(MonitorMaxRecords) && MaxRecordsOk(MonitorMaxRecords) && r.sort == Some(SortName(DateDesc))
    ensures r.format.None? && r.startdatetime.None? && r.enddatetime.None? && r.timelinesmooth.None?
  {
    DocQuery(p.query, "ArtList", Some(IntervalName(p.interval)), Some(MonitorMaxRecords), Some("DateDesc"))
  }

  /** The interval is a valid time window of the DOC API. */
  lemma IntervalIsTimespan(i: Interval)
    ensures ValidateTimespan(IntervalName(i))
  {
    match i
    case FifteenMinutes => assert ValidateTimespan("15min");
    case OneHour => assert ValidateTimespan("1h");
    case ThreeHours => assert ValidateTimespan("3h");
  }

  function MonitorBlock(n: nat, a: Article): string {
    NatToString(n) + ". " + a.title + "\n   URL: " + a.url + "\n   Domain: " + a.domain + "\n   Date: " + a.seendate
  }

  function MonitorHeader(query: string, interval: Interval, n: nat): string {
    "Monitoring \"" + query + "\" (last " + IntervalName(interval) + "):\n\n" +
    "Found " + NatToString(n) + " recent articles:\n\n"
  }

  function MonitorText(p: MonitorParams, articles: seq<Article>): string {
    MonitorHeader(p.query, p.interval, |articles|) + Truncated(articles, TextLimit, MonitorBlock)
  }

  /**
   * The handler after the fetch: every article of the response, their count, and the interval
   * and query it was asked for.
   */
  function Handle(p: MonitorParams, response: DocResponse): (r: ToolResult)
    ensures r.structured == MonitorData(ResponseArticles(response), |ResponseArticles(response)|, p.interval, p.query)
    ensures r.text == MonitorText(p, ResponseArticles(response))
  {
    var articles := ResponseArticles(response);
    ToolResult(MonitorText(p, articles), MonitorData(articles, |articles|, p.interval, p.query))
  }

  /**
   * The text lists the first ten articles; with more than ten it ends with the truncation note,
   * the structured data still holding them all.
   */
  lemma TextShowsFirstTen(p: MonitorParams, articles: seq<Article>)
    ensures var header := MonitorHeader(p.query, p.interval, |articles|);
      (|articles| > TextLimit ==>
        MonitorText(p, articles) == header + Join(Numbered(articles[..TextLimit], MonitorBlock), "\n\n") + MoreNote &&
        EndsWith(MonitorText(p, articles), MoreNote)) &&
      (|articles| <= TextLimit ==>
        MonitorText(p, articles) == header + Join(Numbered(articles, MonitorBlock), "\n\n"))
  {
    var header := MonitorHeader(p.query, p.interval, |articles|);
    TruncatedShowsPrefix(articles, TextLimit, MonitorBlock);
    if |articles| > TextLimit {
      var shown := Join(Numbered(articles[..TextLimit], MonitorBlock), "\n\n");
      assert MonitorText(p, articles) == (header + shown) + MoreNote;
      EndsWithAppended(header + shown, MoreNote);
    }
  }

  /** A response without an article list gives no articles and a count of 0. */
  lemma MissingArticlesIsEmpty(p: MonitorParams, response: DocResponse)
    requires response.articles.None?
    ensures Handle(p, response).structured == MonitorData([], 0, p.interval, p.query)
  {
  }
}
