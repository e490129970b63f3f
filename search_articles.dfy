/** The gdelt_search_articles tool: the DOC API's article list, every article in the text view. */
module SearchArticlesTool {
  import opened Wrappers
  import opened Strings
  import opened GdeltTypes
  import opened ToolSchemas
  import opened ToolOutput

  /** The DOC API request: article-list mode with the query, time window, record limit and order. */
  function Request(p: SearchArticlesParams): (r: DocRequest)
    ensures r.query == p.query && r.mode == "ArtList" && r.timespan == Some(p.timespan)
    ensures r.maxrecords == Some(p.maxrecords) && r.sort == Some(SortName(p.sort))
    ensures r.format.None? && r.startdatetime.None? && r.enddatetime.None? && r.timelinesmooth.None?
  {
    DocQuery(p.query, "ArtList", Some(p.timespan), Some(p.maxrecords), Some(SortName(p.sort)))
  }

  /** The sort order reaches the API under one of the names the schema accepts. */
  lemma RequestSortIsAccepted(p: SearchArticlesParams)
    ensures Request(p).sort.Some? && SortFromName(Request(p).sort.value) == Some(p.sort)
  {
    EnumNamesRoundTrip(p.sort, Volume, FifteenMinutes);
  }

  function SearchBlock(n: nat, a: Article): string {
    NatToString(n) + ". " + a.title + "\n   URL: " + a.url + "\n   Domain: " + a.domain +
    "\n   Language: " + a.language + "\n   Country: " + a.sourcecountry + "\n   Date: " + a.seendate
  }

  function SearchText(articles: seq<Article>): string {
    "Found " + NatToString(|articles|) + " articles:\n\n" + Join(Numbered(articles, SearchBlock), "\n\n")
  }

  /**
   * The handler after the fetch: every article of the response and their count; the text has
   * one block per article, numbered from 1 in the response's order.
   */
  function Handle(p: SearchArticlesParams, response: DocResponse): (r: ToolResult)
    ensures r.structured == ArticleList(ResponseArticles(response), |ResponseArticles(response)|)
    ensures r.text == SearchText(ResponseArticles(response))
  {
    var articles := ResponseArticles(response);
    ToolResult(SearchText(articles), ArticleList(articles, |articles|))
  }

  /** A response without an article list gives no articles and a count of 0. */
  lemma MissingArticlesIsEmpty(p: SearchArticlesParams, response: DocResponse)
    requires response.articles.None?
    ensures Handle(p, response).structured == ArticleList([], 0)
  {
  }
}
