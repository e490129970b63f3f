/**
 * The MCP server's two request handlers: ListTools, the six tool definitions in a fixed
 * order, and CallTool, which looks the tool up by name, validates the arguments with its
 * schema, fetches from the API and runs the tool's handler, turning every failure into an
 * error result. The API is a parameter: `Env` gives the response (or the error message) the
 * server would receive for each request.
 */
module GdeltServer {
  import opened Wrappers
  import opened GdeltTypes
  import opened ToolSchemas
  import opened ToolOutput
  import SearchArticlesTool
  import TimelineTool
  import ToneChartTool
  import GeoSearchTool
  import ImageSearchTool
  import MonitorTool

  datatype Tool = SearchArticles | Timeline | ToneChart | GeoSearch | ImageSearch | Monitor

  function ToolName(t: Tool): string {
    match t
    case SearchArticles => "gdelt_search_articles"
    case Timeline => "gdelt_timeline"
    case ToneChart => "gdelt_tone_chart"
    case GeoSearch => "gdelt_geo_search"
    case ImageSearch => "gdelt_image_search"
    case Monitor => "gdelt_monitor"
  }

  /** The `switch (name)`: the tool of that name, None for any other name. */
  function LookupTool(name: string): (r: Option<Tool>)
    ensures r.Some? ==> ToolName(r.value) == name
  {
    if name == "gdelt_search_articles" then Some(SearchArticles)
    else if name == "gdelt_timeline" then Some(Timeline)
    else if name == "gdelt_tone_chart" then Some(ToneChart)
    else if name == "gdelt_geo_search" then Some(GeoSearch)
    else if name == "gdelt_image_search" then Some(ImageSearch)
    else if name == "gdelt_monitor" then Some(Monitor)
    else None
  }

  /** Every tool is found under its own name, so distinct tools have distinct names. */
  lemma LookupFindsEveryTool(t: Tool, u: Tool)
    ensures LookupTool(ToolName(t)) == Some(t)
    ensures ToolName(t) == ToolName(u) ==> t == u
  {
  }

  /** A tool definition; only its name is modelled. */
  datatype ToolDefinition = ToolDefinition(name: string)

  /** The tools in the order ListTools gives them. */
  const ToolOrder: seq<Tool> := [SearchArticles, Timeline, ToneChart, GeoSearch, ImageSearch, Monitor]

  function ListTools(): (tools: seq<ToolDefinition>)
    ensures |tools| == |ToolOrder|
    ensures forall i :: 0 <= i < |tools| ==> tools[i] == ToolDefinition(ToolName(ToolOrder[i]))
  {
    seq(|ToolOrder|, i requires 0 <= i < |ToolOrder| => ToolDefinition(ToolName(ToolOrder[i])))
  }

  /**
   * ListTools gives six definitions, one per tool: every listed name dispatches to its tool,
   * no name is listed twice, and every tool is listed.
   */
  lemma {:induction false} ListToolsCoversEveryTool()
    ensures |ListTools()| == 6
    ensures forall i :: 0 <= i < 6 ==> LookupTool(ListTools()[i].name) == Some(ToolOrder[i])
    ensures forall i, j :: 0 <= i < j < 6 ==> ListTools()[i].name != ListTools()[j].name
    ensures forall t: Tool :: exists i :: 0 <= i < 6 && ListTools()[i].name == ToolName(t)
  {
    var tools := ListTools();
    forall i | 0 <= i < 6
      ensures LookupTool(tools[i].name) == Some(ToolOrder[i])
    {
      LookupFindsEveryTool(ToolOrder[i], ToolOrder[i]);
    }
    forall i, j | 0 <= i < j < 6
      ensures tools[i].name != tools[j].name
    {
      LookupFindsEveryTool(ToolOrder[i], ToolOrder[j]);
    }
    forall t: Tool
      ensures exists i :: 0 <= i < 6 && tools[i].name == ToolName(t)
    {
      var i := match t
        case SearchArticles => 0 case Timeline => 1 case ToneChart => 2
        case GeoSearch => 3 case ImageSearch => 4 case Monitor => 5;
      assert tools[i].name == ToolName(t);
    }
  }

  /** What the server fetches from and cannot see into. */
  datatype Env = Env(
    fetchDoc: DocRequest -> Result<DocResponse, string>,
    fetchGeo: GeoRequest -> Result<GeoResponse, string>,
    /** `((count / total) * 100).toFixed(1)` for the tone chart's percentages. */
    percent: (int, int) -> string,
    /** The message of the error a schema throws for these issues. */
    issuesMessage: seq<Issue> -> string)

  /** A validated tool call: the tool and its parameters with the defaults filled in. */
  datatype Call =
    | SearchCall(search: SearchArticlesParams)
    | TimelineCall(timeline: TimelineParams)
    | ToneCall(tone: ToneChartParams)
    | GeoCall(geo: GeoSearchParams)
    | ImageCall(image: ImageSearchParams)
    | MonitorCall(monitor: MonitorParams)

  function ToolOf(c: Call): Tool {
    match c
    case SearchCall(_) => SearchArticles
    case TimelineCall(_) => Timeline
    case ToneCall(_) => ToneChart
    case GeoCall(_) => GeoSearch
    case ImageCall(_) => ImageSearch
    case MonitorCall(_) => Monitor
  }

  /**
   * `XSchema.parse(args)`: the tool's own schema, and nothing else, decides the call; its
   * issues are passed on unchanged.
   */
  function Validate(t: Tool, args: Option<map<string, Json>>): (r: Result<Call, seq<Issue>>)
    ensures r.Success? ==> ToolOf(r.value) == t
  {
    match t
    case SearchArticles => (match ParseSearchArticles(args) case Success(p) => Success(SearchCall(p)) case Failure(e) => Failure(e))
    case Timeline => (match ParseTimeline(args) case Success(p) => Success(TimelineCall(p)) case Failure(e) => Failure(e))
    case ToneChart => (match ParseToneChart(args) case Success(p) => Success(ToneCall(p)) case Failure(e) => Failure(e))
    case GeoSearch => (match ParseGeoSearch(args) case Success(p) => Success(GeoCall(p)) case Failure(e) => Failure(e))
    case ImageSearch => (match ParseImageSearch(args) case Success(p) => Success(ImageCall(p)) case Failure(e) => Failure(e))
    case Monitor => (match ParseMonitor(args) case Success(p) => Success(MonitorCall(p)) case Failure(e) => Failure(e))
  }

  /** Validation is the tool's own schema: it accepts exactly what the schema accepts, with its issues. */
  lemma ValidateUsesOwnSchema(t: Tool, args: Option<map<string, Json>>)
    ensures t == SearchArticles ==> var s := ParseSearchArticles(args);
      (Validate(t, args).Success? <==> s.Success?) && (s.Success? ==> Validate(t, args).value == SearchCall(s.value)) && (s.Failure? ==> Validate(t, args).error == s.error)
    ensures t == Timeline ==> var s := ParseTimeline(args);
      (Validate(t, args).Success? <==> s.Success?) && (s.Success? ==> Validate(t, args).value == TimelineCall(s.value)) && (s.Failure? ==> Validate(t, args).error == s.error)
    ensures t == ToneChart ==> var s := ParseToneChart(args);
      (Validate(t, args).Success? <==> s.Success?) && (s.Success? ==> Validate(t, args).value == ToneCall(s.value)) && (s.Failure? ==> Validate(t, args).error == s.error)
    ensures t == GeoSearch ==> var s := ParseGeoSearch(args);
      (Validate(t, args).Success? <==> s.Success?) && (s.Success? ==> Validate(t, args).value == GeoCall(s.value)) && (s.Failure? ==> Validate(t, args).error == s.error)
    ensures t == ImageSearch ==> var s := ParseImageSearch(args);
      (Validate(t, args).Success? <==> s.Success?) && (s.Success? ==> Validate(t, args).value == ImageCall(s.value)) && (s.Failure? ==> Validate(t, args).error == s.error)
    ensures t == Monitor ==> var s := ParseMonitor(args);
      (Validate(t, args).Success? <==> s.Success?) && (s.Success? ==> Validate(t, args).value == MonitorCall(s.value)) && (s.Failure? ==> Validate(t, args).error == s.error)
  {
  }

  /** Every validated call holds parameters that satisfy all of its schema's constraints. */
  lemma ValidatedCallsAreValid(t: Tool, args: Option<map<string, Json>>)
    ensures var r := Validate(t, args);
      r.Success? ==> match r.value
        case SearchCall(p) => ValidSearchArticles(p)
        case TimelineCall(p) => ValidTimeline(p)
        case ToneCall(p) => ValidToneChart(p)
        case GeoCall(p) => ValidGeoSearch(p)
        case ImageCall(p) => ValidImageSearch(p)
        case MonitorCall(p) => ValidMonitor(p)
  {
  }

  /** A request handed to the API. */
  datatype Sent = DocSent(doc: DocRequest) | GeoSent(geo: GeoRequest)

  /** The CallTool reply: a text content item, the structured content of a success, the error flag. */
  datatype Reply = Reply(text: string, structured: Option<Payload>, isError: bool)

  /** The reply and the requests the call sent, in order. */
  datatype Outcome = Outcome(reply: Reply, sent: seq<Sent>)

  /** The `catch` branch: `Error: ` and the message, flagged as an error. */
  function ErrorReply(message: string): Reply {
    Reply("Error: " + message, None, true)
  }

  function Returned(r: ToolResult): Reply {
    Reply(r.text, Some(r.structured), false)
  }

  /** The API request of a validated call. */
  function RequestOf(c: Call): Sent {
    match c
    case SearchCall(p) => DocSent(SearchArticlesTool.Request(p))
    case TimelineCall(p) => DocSent(TimelineTool.Request(p))
    case ToneCall(p) => DocSent(ToneChartTool.Request(p))
    case GeoCall(p) => GeoSent(GeoSearchTool.Request(p))
    case ImageCall(p) => DocSent(ImageSearchTool.Request(p))
    case MonitorCall(p) => DocSent(MonitorTool.Request(p))
  }

  /** The handler of a DOC API tool, applied to the response. */
  function HandleDoc(env: Env, c: Call, response: DocResponse): ToolResult
    requires !c.GeoCall?
  {
    match c
    case SearchCall(p) => SearchArticlesTool.Handle(p, response)
    case TimelineCall(p) => TimelineTool.Handle(p, response)
    case ToneCall(p) => ToneChartTool.Handle(p, response, env.percent)
    case ImageCall(p) => ImageSearchTool.Handle(p, response)
    case MonitorCall(p) => MonitorTool.Handle(p, response)
  }

  /**
   * `return await handler(params)` inside the `try`: one request to the API; a fetch error
   * becomes an error reply, a response becomes the handler's result, returned unchanged.
   */
  function Run(env: Env, c: Call): (o: Outcome)
    ensures o.sent == [RequestOf(c)]
    ensures c.GeoCall? ==> var g := env.fetchGeo(GeoSearchTool.Request(c.geo));
      o.reply == (if g.Failure? then ErrorReply(g.error) else Returned(GeoSearchTool.Handle(c.geo, g.value)))
    ensures !c.GeoCall? ==> var d := env.fetchDoc(RequestOf(c).doc);
      o.reply == (if d.Failure? then ErrorReply(d.error) else Returned(HandleDoc(env, c, d.value)))
  {
    match RequestOf(c)
    case GeoSent(req) =>
      var reply := match env.fetchGeo(req)
        case Failure(message) => ErrorReply(message)
        case Success(response) => Returned(GeoSearchTool.Handle(c.geo, response));
      Outcome(reply, [GeoSent(req)])
    case DocSent(req) =>
      var reply := match env.fetchDoc(req)
        case Failure(message) => ErrorReply(message)
        case Success(response) => Returned(HandleDoc(env, c, response));
      Outcome(reply, [DocSent(req)])
  }

  /**
   * The CallTool handler. An unknown name and arguments the schema rejects give an error
   * reply before any request is sent; otherwise exactly the validated call's request is sent.
   * A reply is an error exactly when it carries no structured content.
   */
  function CallTool(env: Env, name: string, args: Option<map<string, Json>>): (o: Outcome)
    ensures LookupTool(name).None? ==> o == Outcome(ErrorReply("Unknown tool: " + name), [])
    ensures LookupTool(name).Some? ==> var v := Validate(LookupTool(name).value, args);
      (v.Failure? ==> o == Outcome(ErrorReply(env.issuesMessage(v.error)), [])) &&
      (v.Success? ==> o == Run(env, v.value))
    ensures |o.sent| <= 1
    ensures o.reply.isError <==> o.reply.structured.None?
    ensures o.reply.isError ==> StartsWithError(o.reply.text)
  {
    match LookupTool(name)
    case None => Outcome(ErrorReply("Unknown tool: " + name), [])
    case Some(t) =>
      match Validate(t, args)
      case Failure(issues) => Outcome(ErrorReply(env.issuesMessage(issues)), [])
      case Success(c) => Run(env, c)
  }

  predicate StartsWithError(text: string) {
    |text| >= 7 && text[..7] == "Error: "
  }

  /** Arguments that the schema accepts reach the API as that tool's request. */
  lemma ValidArgumentsReachTheApi(env: Env, t: Tool, args: Option<map<string, Json>>)
    requires Validate(t, args).Success?
    ensures CallTool(env, ToolName(t), args).sent == [RequestOf(Validate(t, args).value)]
    ensures ToolOf(Validate(t, args).value) == t
  {
    LookupFindsEveryTool(t, t);
  }

  /**
   * The search-articles tool end to end: with only a query, the request carries the schema's
   * defaults, and a response's articles are returned unchanged with their count.
   */
  lemma SearchWithDefaults(env: Env, q: string)
    requires |q| > 0
    ensures var o := CallTool(env, "gdelt_search_articles", Some(map["query" := JString(q)]));
      var req := DocQuery(q, "ArtList", Some("3d"), Some(75), Some("DateDesc"));
      o.sent == [DocSent(req)] &&
      (env.fetchDoc(req).Success? ==>
        var articles := ResponseArticles(env.fetchDoc(req).value);
        o.reply.structured == Some(ArticleList(articles, |articles|)) && !o.reply.isError)
  {
    SearchTimelineToneDefaults(q);
    LookupFindsEveryTool(SearchArticles, SearchArticles);
  }
}
