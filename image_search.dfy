/**
 * The gdelt_image_search tool: an article list from the DOC API, cut down to the articles that
 * carry a social image, and an image record for each of them.
 */
module ImageSearchTool {
  import opened Wrappers
  import opened Seqs
  import opened Strings
  import opened GdeltTypes
  import opened ToolSchemas
  import opened ToolOutput

  /** The DOC API request: article-list mode with the query, time window and record limit. */
  function Request(p: ImageSearchParams): (r: DocRequest)
    ensures r.query == p.query && r.mode == "ArtList" && r.timespan == Some(p.timespan)
    ensures r.maxrecords == Some(p.maxrecords) && r.sort.None?
    ensures r.format.None? && r.startdatetime.None? && r.enddatetime.None? && r.timelinesmooth.None?
  {
    DocQuery(p.query, "ArtList", Some(p.timespan), Some(p.maxrecords), None)
  }

  /** `a => a.socialimage` as a filter: present and not the empty string. */
  predicate HasImage(a: Article) {
    a.socialimage.Some? && |a.socialimage.value| > 0
  }

  /** The image record of an article: its social image URL, no other metadata. */
  function ToImage(a: Article): ImageInfo {
    ImageInfo(a.socialimage.GetOr(""), None, None, None, None, None, None)
  }

  /** `articlesWithImages.map(toImage)`. */
  function Images(articles: seq<Article>): (images: seq<ImageInfo>)
    ensures |images| == |articles|
    ensures forall i :: 0 <= i < |articles| ==> images[i] == ToImage(articles[i])
  {
    if articles == [] then []
    else [ToImage(articles[0])] + Images(articles[1..])
  }

  function ImageBlock(n: nat, a: Article): string {
    NatToString(n) + ". " + a.title + "\n   Image: " + a.socialimage.GetOr("") +
    "\n   Source: " + a.domain + "\n   URL: " + a.url
  }

  function ImageText(kept: seq<Article>): string {
    "Found " + NatToString(|kept|) + " articles with images:\n\n" + Join(Numbered(kept, ImageBlock), "\n\n")
  }

  /**
   * The handler after the fetch: the articles with an image, in the API's order, and one image
   * record per kept article whose URL is that article's image.
   */
  function Handle(p: ImageSearchParams, response: DocResponse): (r: ToolResult)
    ensures r.structured.ImageList?
    ensures var articles, kept := ResponseArticles(response), r.structured.articles;
      kept == Filter(articles, HasImage) &&
      (forall i :: 0 <= i < |kept| ==> HasImage(kept[i]) && kept[i] in articles) &&
      (forall i :: 0 <= i < |articles| && HasImage(articles[i]) ==> articles[i] in kept)
    ensures var kept, images := r.structured.articles, r.structured.images;
      |images| == |kept| == r.structured.count &&
      (forall i :: 0 <= i < |kept| ==>
        images[i].url == kept[i].socialimage.value &&
        images[i].webcount.None? && images[i].tags.None? && images[i].webtags.None? &&
        images[i].ocr.None? && images[i].facetone.None? && images[i].numfaces.None?)
    ensures r.text == ImageText(r.structured.articles)
  {
    var kept := Filter(ResponseArticles(response), HasImage);
    ToolResult(ImageText(kept), ImageList(kept, Images(kept), |kept|))
  }

  /** The kept articles are the response's articles with an image, as an ordered subsequence. */
  lemma KeptArticlesAreOrderedSubsequence(p: ImageSearchParams, response: DocResponse)
    ensures var articles, kept := ResponseArticles(response), Handle(p, response).structured.articles;
      var ix := KeptIndices(articles, HasImage, 0);
      |kept| == |ix| &&
      (forall k :: 0 <= k < |ix| ==> ix[k] < |articles| && kept[k] == articles[ix[k]]) &&
      (forall k, l :: 0 <= k < l < |ix| ==> ix[k] < ix[l]) &&
      (forall i :: 0 <= i < |articles| ==> (HasImage(articles[i]) <==> i in ix))
  {
    var articles := ResponseArticles(response);
    FilterIsOrderedSubsequence(articles, HasImage);
    forall i | 0 <= i < |articles|
      ensures HasImage(articles[i]) <==> i in KeptIndices(articles, HasImage, 0)
    {
      KeptIndicesExact(articles, HasImage, 0, i);
    }
  }

  /**
   * Of five articles, the second and fifth without an image field and the third with an empty
   * image, the first and fourth are kept, in order, and give the two image records (which
   * Handle returns with a count of 2).
   */
  lemma TwoOfFiveExample(a: Article, b: Article, c: Article, d: Article, e: Article, imageA: string, imageD: string)
    requires |imageA| > 0 && |imageD| > 0
    requires a.socialimage == Some(imageA) && d.socialimage == Some(imageD)
    requires b.socialimage.None? && c.socialimage == Some("") && e.socialimage.None?
    ensures Filter([a, b, c, d, e], HasImage) == [a, d]
    ensures Images([a, d])[0].url == imageA && Images([a, d])[1].url == imageD
  {
    assert HasImage(a) && !HasImage(b) && !HasImage(c) && HasImage(d) && !HasImage(e);
    var s4, s3, s2, s1 := [e], [d, e], [c, d, e], [b, c, d, e];
    assert [e] + [] == s4 && [d] + s4 == s3 && [c] + s3 == s2 && [b] + s2 == s1 && [a] + s1 == [a, b, c, d, e];
    FilterCons(e, [], HasImage);
    assert Filter(s4, HasImage) == [];
    FilterCons(d, s4, HasImage);
    assert Filter(s3, HasImage) == [d];
    FilterCons(c, s3, HasImage);
    assert Filter(s2, HasImage) == [d];
    FilterCons(b, s2, HasImage);
    assert Filter(s1, HasImage) == [d];
    FilterCons(a, s1, HasImage);
    PairDisplay(a, d);
  }

  /** A response without an article list gives no articles, no images and a count of 0. */
  lemma MissingArticlesIsEmpty(p: ImageSearchParams, response: DocResponse)
    requires response.articles.None?
    ensures Handle(p, response).structured == ImageList([], [], 0)
  {
  }
}
