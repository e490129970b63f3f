/**
 * The records the GDELT DOC and GEO APIs exchange with the server: request parameters,
 * response bodies and their items. A field the API may leave out is an Option; JSON numbers
 * are integers here.
 */
module GdeltTypes {
  import opened Wrappers

  /** One article of a DOC API article list. */
  datatype Article = Article(
    url: string,
    urlMobile: Option<string>,
    title: string,
    seendate: string,
    socialimage: Option<string>,
    domain: string,
    language: string,
    sourcecountry: string)

  /** One point of a timeline series. */
  datatype TimelineEntry = TimelineEntry(date: string, value: int)

  /** One named series of a timeline response; the API may omit its data. */
  datatype TimelineSeries = TimelineSeries(series: string, data: Option<seq<TimelineEntry>>)

  /** An article listed under a tone bin. */
  datatype TopArticle = TopArticle(url: string, title: string)

  /** One bin of the API's tone histogram: the tone value `bin` and how many articles have it. */
  datatype ToneBin = ToneBin(bin: int, count: int, toparts: seq<TopArticle>)

  /** The server's own tone histogram entry: the bin renamed to `tone`. */
  datatype ToneChartEntry = ToneChartEntry(tone: int, count: int)

  /** A GeoJSON Point; coordinates are [longitude, latitude]. */
  datatype Point = Point(longitude: int, latitude: int)

  datatype GeoProperties = GeoProperties(name: string, count: int, articles: Option<seq<Article>>)

  /** A GeoJSON Feature of the GEO API's point data. */
  datatype GeoFeature = GeoFeature(geometry: Point, properties: GeoProperties)

  /** Image metadata; every field but the URL is optional. */
  datatype ImageInfo = ImageInfo(
    url: string,
    webcount: Option<int>,
    tags: Option<seq<string>>,
    webtags: Option<seq<string>>,
    ocr: Option<string>,
    facetone: Option<int>,
    numfaces: Option<int>)

  /** Parameters of a DOC API request. */
  datatype DocRequest = DocRequest(
    query: string,
    mode: string,
    format: Option<string>,
    timespan: Option<string>,
    startdatetime: Option<string>,
    enddatetime: Option<string>,
    maxrecords: Option<int>,
    sort: Option<string>,
    timelinesmooth: Option<int>)

  /** Parameters of a GEO API request. */
  datatype GeoRequest = GeoRequest(
    query: string,
    mode: string,
    format: Option<string>,
    timespan: Option<string>,
    startdatetime: Option<string>,
    enddatetime: Option<string>,
    maxpoints: Option<int>,
    geores: Option<int>,
    sortby: Option<string>)

  /**
   * A DOC API response body. Each mode fills one of the fields; `tonechart` holds the API's
   * raw bins, which are read under that name.
   */
  datatype DocResponse = DocResponse(
    articles: Option<seq<Article>>,
    timeline: Option<seq<TimelineSeries>>,
    tonechart: Option<seq<ToneBin>>,
    images: Option<seq<ImageInfo>>)

  /** A GEO API response body: a GeoJSON FeatureCollection. */
  datatype GeoResponse = GeoResponse(features: Option<seq<GeoFeature>>)

  /** A DOC API request with only the query, mode and the given optional fields set. */
  function DocQuery(query: string, mode: string, timespan: Option<string>, maxrecords: Option<int>, sort: Option<string>): DocRequest {
    DocRequest(query, mode, None, timespan, None, None, maxrecords, sort, None)
  }
}
