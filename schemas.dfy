/**
 * The Zod schemas that validate each tool's arguments and fill in its defaults. A schema
 * either yields the parameter record or every issue it found, in the order of the schema's
 * fields; keys the schema does not name are dropped.
 */
module ToolSchemas {
  import opened Wrappers
  import opened Strings
  import opened GdeltUtils

  /** A JSON value as a tool call's arguments carry it. */
  datatype Json = JNull | JBool(b: bool) | JNumber(n: real) | JString(s: string) | JArray(items: seq<Json>) | JObject(fields: map<string, Json>)

  /** What a Zod issue reports; the two custom messages of the schemas are kept verbatim. */
  datatype IssueKind =
    | Required
    | InvalidType(expected: string)
    | QueryEmpty
    | InvalidTimespan
    | NotInteger
    | TooSmall(minimum: int)
    | TooBig(maximum: int)
    | InvalidEnum(options: seq<string>)

  datatype Issue = Issue(path: seq<string>, kind: IssueKind)

  /** The messages the schemas set themselves; Zod's built-in messages are not modelled. */
  function CustomMessage(kind: IssueKind): Option<string> {
    match kind
    case QueryEmpty => Some("Query cannot be empty")
    case InvalidTimespan => Some("Invalid timespan format")
    case _ => None
  }

  // ---------------------------------------------------------------------------
  // Enumerations

  datatype Sort = DateDesc | DateAsc | ToneDesc | ToneAsc | HybridRel

  function SortName(s: Sort): string {
    match s
    case DateDesc => "DateDesc"
    case DateAsc => "DateAsc"
    case ToneDesc => "ToneDesc"
    case ToneAsc => "ToneAsc"
    case HybridRel => "HybridRel"
  }

  const SortOptions: seq<string> := ["DateDesc", "DateAsc", "ToneDesc", "ToneAsc", "HybridRel"]

  function SortFromName(name: string): (r: Option<Sort>)
    ensures r.Some? <==> name in SortOptions
    ensures r.Some? ==> SortName(r.value) == name
  {
    if name == "DateDesc" then Some(DateDesc)
    else if name == "DateAsc" then Some(DateAsc)
    else if name == "ToneDesc" then Some(ToneDesc)
    else if name == "ToneAsc" then Some(ToneAsc)
    else if name == "HybridRel" then Some(HybridRel)
    else None
  }

  datatype TimelineType = Volume | Tone | Language | SourceCountry

  function TimelineTypeName(t: TimelineType): string {
    match t
    case Volume => "volume"
    case Tone => "tone"
    case Language => "language"
    case SourceCountry => "sourcecountry"
  }

  const TimelineTypeOptions: seq<string> := ["volume", "tone", "language", "sourcecountry"]

  function TimelineTypeFromName(name: string): (r: Option<TimelineType>)
    ensures r.Some? <==> name in TimelineTypeOptions
    ensures r.Some? ==> TimelineTypeName(r.value) == name
  {
    if name == "volume" then Some(Volume)
    else if name == "tone" then Some(Tone)
    else if name == "language" then Some(Language)
    else if name == "sourcecountry" then Some(SourceCountry)
    else None
  }

  datatype Interval = FifteenMinutes | OneHour | ThreeHours

  function IntervalName(i: Interval): string {
    match i
    case FifteenMinutes => "15min"
    case OneHour => "1h"
    case ThreeHours => "3h"
  }

  const IntervalOptions: seq<string> := ["15min", "1h", "3h"]

  function IntervalFromName(name: string): (r: Option<Interval>)
    ensures r.Some? <==> name in IntervalOptions
    ensures r.Some? ==> IntervalName(r.value) == name
  {
    if name == "15min" then Some(FifteenMinutes)
    else if name == "1h" then Some(OneHour)
    else if name == "3h" then Some(ThreeHours)
    else None
  }

  /** Every enumeration value is read back from its own name. */
  lemma EnumNamesRoundTrip(s: Sort, t: TimelineType, i: Interval)
    ensures SortFromName(SortName(s)) == Some(s)
    ensures TimelineTypeFromName(TimelineTypeName(t)) == Some(t)
    ensures IntervalFromName(IntervalName(i)) == Some(i)
  {
  }

  // ---------------------------------------------------------------------------
  // Field schemas

  /** The value under key, None when the key is absent (`undefined`). */
  function Lookup(args: map<string, Json>, key: string): Option<Json> {
    if key in args then Some(args[key]) else None
  }

  /** `z.string().min(1, 'Query cannot be empty')` under the key `query`. */
  function ParseQuery(v: Option<Json>): (r: Result<string, seq<Issue>>)
    ensures r.Success? <==> (v.Some? && v.value.JString? && |v.value.s| > 0)
    ensures r.Success? ==> r.value == v.value.s
    ensures v == Some(JString("")) ==> r == Failure([Issue(["query"], QueryEmpty)])
    ensures r.Failure? ==> |r.error| == 1
  {
    match v
    case None => Failure([Issue(["query"], Required)])
    case Some(JString(s)) => if |s| >= 1 then Success(s) else Failure([Issue(["query"], QueryEmpty)])
    case Some(_) => Failure([Issue(["query"], InvalidType("string"))])
  }

  /**
   * `TimespanSchema.default(d)`: an absent value becomes d, which then passes the same
   * `z.string().regex(/^\d+(min|h|d|w|m)$/)` check as a supplied one.
   */
  function ParseTimespan(v: Option<Json>, default: string): (r: Result<string, seq<Issue>>)
    ensures v.None? ==> r == (if ValidateTimespan(default) then Success(default) else Failure([Issue(["timespan"], InvalidTimespan)]))
    ensures v.Some? ==> (r.Success? <==> v.value.JString? && ValidateTimespan(v.value.s))
    ensures r.Success? ==> ValidateTimespan(r.value) && (v.Some? ==> r.value == v.value.s)
    ensures r.Failure? ==> |r.error| == 1
  {
    var s := match v case None => JString(default) case Some(j) => j;
    match s
    case JString(t) => if ValidateTimespan(t) then Success(t) else Failure([Issue(["timespan"], InvalidTimespan)])
    case _ => Failure([Issue(["timespan"], InvalidType("string"))])
  }

  /** The issues of `z.number().int().min(lo).max(hi)` on x: every failed check, in that order. */
  function NumberIssues(key: string, x: real, lo: int, hi: int): (issues: seq<Issue>)
    ensures issues == [] <==> (x.Floor as real == x && lo as real <= x <= hi as real)
    ensures x.Floor as real != x ==> Issue([key], NotInteger) in issues
    ensures x < lo as real ==> Issue([key], TooSmall(lo)) in issues
    ensures x > hi as real ==> Issue([key], TooBig(hi)) in issues
  {
    (if x.Floor as real != x then [Issue([key], NotInteger)] else []) +
    (if x < lo as real then [Issue([key], TooSmall(lo))] else []) +
    (if x > hi as real then [Issue([key], TooBig(hi))] else [])
  }

  /**
   * `z.number().int().min(lo).max(hi).optional().default(d)`: an absent value becomes d;
   * a present one must be a number that passes all three checks, and is never clamped.
   */
  function ParseBoundedInt(key: string, v: Option<Json>, lo: int, hi: int, default: int): (r: Result<int, seq<Issue>>)
    ensures v.None? ==> (r.Success? <==> lo <= default <= hi) && (r.Success? ==> r.value == default)
    ensures v.Some? ==> (r.Success? <==> v.value.JNumber? && v.value.n.Floor as real == v.value.n &&
                                         lo as real <= v.value.n <= hi as real)
    ensures r.Success? ==> lo <= r.value <= hi && (v.Some? ==> r.value as real == v.value.n)
    ensures r.Failure? ==> |r.error| > 0
  {
    var j := match v case None => JNumber(default as real) case Some(j) => j;
    match j
    case JNumber(x) =>
      var issues := NumberIssues(key, x, lo, hi);
      if issues == [] then Success(x.Floor) else Failure(issues)
    case _ => Failure([Issue([key], InvalidType("number"))])
  }

  /** `z.enum(options).optional().default(d)` for an enumeration read with fromName. */
  function ParseEnum<T>(key: string, v: Option<Json>, options: seq<string>, fromName: string -> Option<T>, default: T): (r: Result<T, seq<Issue>>)
    ensures v.None? ==> r == Success(default)
    ensures v.Some? && v.value.JString? && fromName(v.value.s).Some? ==> r == Success(fromName(v.value.s).value)
    ensures v.Some? && !(v.value.JString? && fromName(v.value.s).Some?) ==> r.Failure? && |r.error| == 1
  {
    match v
    case None => Success(default)
    case Some(JString(s)) =>
      (match fromName(s)
       case Some(t) => Success(t)
       case None => Failure([Issue([key], InvalidEnum(options))]))
    case Some(_) => Failure([Issue([key], InvalidType(Join(options, " | ")))])
  }

  /** The issues of a field result, none when it succeeded. */
  function IssuesOf<T>(r: Result<T, seq<Issue>>): seq<Issue> {
    if r.Failure? then r.error else []
  }

  /** What `z.object(...)` reports for arguments that are not there at all. */
  const MissingArguments: seq<Issue> := [Issue([], Required)]

  // ---------------------------------------------------------------------------
  // Tool schemas

  datatype SearchArticlesParams = SearchArticlesParams(query: string, timespan: string, maxrecords: int, sort: Sort)
  datatype TimelineParams = TimelineParams(query: string, timespan: string, timelineType: TimelineType)
  datatype ToneChartParams = ToneChartParams(query: string, timespan: string)
  datatype GeoSearchParams = GeoSearchParams(query: string, timespan: string, maxpoints: int)
  datatype ImageSearchParams = ImageSearchParams(query: string, timespan: string, maxrecords: int)
  datatype MonitorParams = MonitorParams(query: string, interval: Interval)

  /** Constraints every parsed parameter set meets. */
  predicate QueryOk(q: string) { |q| > 0 }
  predicate MaxRecordsOk(n: int) { 1 <= n <= 250 }
  predicate MaxPointsOk(n: int) { 1 <= n <= 1000 }

  predicate ValidSearchArticles(p: SearchArticlesParams) {
    QueryOk(p.query) && ValidateTimespan(p.timespan) && MaxRecordsOk(p.maxrecords)
  }
  predicate ValidTimeline(p: TimelineParams) { QueryOk(p.query) && ValidateTimespan(p.timespan) }
  predicate ValidToneChart(p: ToneChartParams) { QueryOk(p.query) && ValidateTimespan(p.timespan) }
  predicate ValidGeoSearch(p: GeoSearchParams) {
    QueryOk(p.query) && ValidateTimespan(p.timespan) && MaxPointsOk(p.maxpoints)
  }
  predicate ValidImageSearch(p: ImageSearchParams) {
    QueryOk(p.query) && ValidateTimespan(p.timespan) && MaxRecordsOk(p.maxrecords)
  }
  predicate ValidMonitor(p: MonitorParams) { QueryOk(p.query) }

  /** SearchArticlesSchema: query; timespan default 3d; maxrecords 1-250 default 75; sort default DateDesc. */
  function ParseSearchArticles(args: Option<map<string, Json>>): (r: Result<SearchArticlesParams, seq<Issue>>)
    ensures r.Success? ==> ValidSearchArticles(r.value)
    ensures r.Failure? ==> |r.error| > 0
    ensures args.None? ==> r == Failure(MissingArguments)
    ensures args.Some? ==>
      var m := args.value;
      var q, t, n, s := ParseQuery(Lookup(m, "query")), ParseTimespan(Lookup(m, "timespan"), "3d"),
                        ParseBoundedInt("maxrecords", Lookup(m, "maxrecords"), 1, 250, 75),
                        ParseEnum("sort", Lookup(m, "sort"), SortOptions, SortFromName, DateDesc);
      (r.Success? <==> q.Success? && t.Success? && n.Success? && s.Success?) &&
      (r.Success? ==> r.value == SearchArticlesParams(q.value, t.value, n.value, s.value)) &&
      (r.Failure? ==> r.error == IssuesOf(q) + IssuesOf(t) + IssuesOf(n) + IssuesOf(s))
  {
    match args
    case None => Failure(MissingArguments)
    case Some(m) =>
      var q := ParseQuery(Lookup(m, "query"));
      var t := ParseTimespan(Lookup(m, "timespan"), "3d");
      var n := ParseBoundedInt("maxrecords", Lookup(m, "maxrecords"), 1, 250, 75);
      var s := ParseEnum("sort", Lookup(m, "sort"), SortOptions, SortFromName, DateDesc);
      if q.Success? && t.Success? && n.Success? && s.Success? then
        Success(SearchArticlesParams(q.value, t.value, n.value, s.value))
      else
        Failure(IssuesOf(q) + IssuesOf(t) + IssuesOf(n) + IssuesOf(s))
  }

  /** TimelineSchema: query; timespan default 1w; timeline_type default volume. */
  function ParseTimeline(args: Option<map<string, Json>>): (r: Result<TimelineParams, seq<Issue>>)
    ensures r.Success? ==> ValidTimeline(r.value)
    ensures r.Failure? ==> |r.error| > 0
    ensures args.None? ==> r == Failure(MissingArguments)
    ensures args.Some? ==>
      var m := args.value;
      var q, t, k := ParseQuery(Lookup(m, "query")), ParseTimespan(Lookup(m, "timespan"), "1w"),
                     ParseEnum("timeline_type", Lookup(m, "timeline_type"), TimelineTypeOptions, TimelineTypeFromName, Volume);
      (r.Success? <==> q.Success? && t.Success? && k.Success?) &&
      (r.Success? ==> r.value == TimelineParams(q.value, t.value, k.value)) &&
      (r.Failure? ==> r.error == IssuesOf(q) + IssuesOf(t) + IssuesOf(k))
  {
    match args
    case None => Failure(MissingArguments)
    case Some(m) =>
      var q := ParseQuery(Lookup(m, "query"));
      var t := ParseTimespan(Lookup(m, "timespan"), "1w");
      var k := ParseEnum("timeline_type", Lookup(m, "timeline_type"), TimelineTypeOptions, TimelineTypeFromName, Volume);
      if q.Success? && t.Success? && k.Success? then Success(TimelineParams(q.value, t.value, k.value))
      else Failure(IssuesOf(q) + IssuesOf(t) + IssuesOf(k))
  }

  /** ToneChartSchema: query; timespan default 3d. */
  function ParseToneChart(args: Option<map<string, Json>>): (r: Result<ToneChartParams, seq<Issue>>)
    ensures r.Success? ==> ValidToneChart(r.value)
    ensures r.Failure? ==> |r.error| > 0
    ensures args.None? ==> r == Failure(MissingArguments)
    ensures args.Some? ==>
      var m := args.value;
      var q, t := ParseQuery(Lookup(m, "query")), ParseTimespan(Lookup(m, "timespan"), "3d");
      (r.Success? <==> q.Success? && t.Success?) &&
      (r.Success? ==> r.value == ToneChartParams(q.value, t.value)) &&
      (r.Failure? ==> r.error == IssuesOf(q) + IssuesOf(t))
  {
    match args
    case None => Failure(MissingArguments)
    case Some(m) =>
      var q := ParseQuery(Lookup(m, "query"));
      var t := ParseTimespan(Lookup(m, "timespan"), "3d");
      if q.Success? && t.Success? then Success(ToneChartParams(q.value, t.value))
      else Failure(IssuesOf(q) + IssuesOf(t))
  }

  /** GeoSearchSchema: query; timespan default 1d; maxpoints 1-1000 default 100. */
  function ParseGeoSearch(args: Option<map<string, Json>>): (r: Result<GeoSearchParams, seq<Issue>>)
    ensures r.Success? ==> ValidGeoSearch(r.value)
    ensures r.Failure? ==> |r.error| > 0
    ensures args.None? ==> r == Failure(MissingArguments)
    ensures args.Some? ==>
      var m := args.value;
      var q, t, n := ParseQuery(Lookup(m, "query")), ParseTimespan(Lookup(m, "timespan"), "1d"),
                     ParseBoundedInt("maxpoints", Lookup(m, "maxpoints"), 1, 1000, 100);
      (r.Success? <==> q.Success? && t.Success? && n.Success?) &&
      (r.Success? ==> r.value == GeoSearchParams(q.value, t.value, n.value)) &&
      (r.Failure? ==> r.error == IssuesOf(q) + IssuesOf(t) + IssuesOf(n))
  {
    match args
    case None => Failure(MissingArguments)
    case Some(m) =>
      var q := ParseQuery(Lookup(m, "query"));
      var t := ParseTimespan(Lookup(m, "timespan"), "1d");
      var n := ParseBoundedInt("maxpoints", Lookup(m, "maxpoints"), 1, 1000, 100);
      if q.Success? && t.Success? && n.Success? then Success(GeoSearchParams(q.value, t.value, n.value))
      else Failure(IssuesOf(q) + IssuesOf(t) + IssuesOf(n))
  }

  /** ImageSearchSchema: query; timespan default 3d; maxrecords 1-250 default 75. */
  function ParseImageSearch(args: Option<map<string, Json>>): (r: Result<ImageSearchParams, seq<Issue>>)
    ensures r.Success? ==> ValidImageSearch(r.value)
    ensures r.Failure? ==> |r.error| > 0
    ensures args.None? ==> r == Failure(MissingArguments)
    ensures args.Some? ==>
      var m := args.value;
      var q, t, n := ParseQuery(Lookup(m, "query")), ParseTimespan(Lookup(m, "timespan"), "3d"),
                     ParseBoundedInt("maxrecords", Lookup(m, "maxrecords"), 1, 250, 75);
      (r.Success? <==> q.Success? && t.Success? && n.Success?) &&
      (r.Success? ==> r.value == ImageSearchParams(q.value, t.value, n.value)) &&
      (r.Failure? ==> r.error == IssuesOf(q) + IssuesOf(t) + IssuesOf(n))
  {
    match args
    case None => Failure(MissingArguments)
    case Some(m) =>
      var q := ParseQuery(Lookup(m, "query"));
      var t := ParseTimespan(Lookup(m, "timespan"), "3d");
      var n := ParseBoundedInt("maxrecords", Lookup(m, "maxrecords"), 1, 250, 75);
      if q.Success? && t.Success? && n.Success? then Success(ImageSearchParams(q.value, t.value, n.value))
      else Failure(IssuesOf(q) + IssuesOf(t) + IssuesOf(n))
  }

  /** MonitorSchema: query; interval default 15min. */
  function ParseMonitor(args: Option<map<string, Json>>): (r: Result<MonitorParams, seq<Issue>>)
    ensures r.Success? ==> ValidMonitor(r.value)
    ensures r.Failure? ==> |r.error| > 0
    ensures args.None? ==> r == Failure(MissingArguments)
    ensures args.Some? ==>
      var m := args.value;
      var q, i := ParseQuery(Lookup(m, "query")),
                  ParseEnum("interval", Lookup(m, "interval"), IntervalOptions, IntervalFromName, FifteenMinutes);
      (r.Success? <==> q.Success? && i.Success?) &&
      (r.Success? ==> r.value == MonitorParams(q.value, i.value)) &&
      (r.Failure? ==> r.error == IssuesOf(q) + IssuesOf(i))
  {
    match args
    case None => Failure(MissingArguments)
    case Some(m) =>
      var q := ParseQuery(Lookup(m, "query"));
      var i := ParseEnum("interval", Lookup(m, "interval"), IntervalOptions, IntervalFromName, FifteenMinutes);
      if q.Success? && i.Success? then Success(MonitorParams(q.value, i.value))
      else Failure(IssuesOf(q) + IssuesOf(i))
  }

  // ---------------------------------------------------------------------------
  // Properties across the schemas

  /** The arguments that name exactly the fields of a search-articles parameter set. */
  function SearchArticlesArgs(p: SearchArticlesParams): map<string, Json> {
    map["query" := JString(p.query), "timespan" := JString(p.timespan),
        "maxrecords" := JNumber(p.maxrecords as real), "sort" := JString(SortName(p.sort))]
  }

  /** Every valid parameter set, written out as arguments, is accepted as it is. */
  lemma SearchArticlesAcceptsValid(p: SearchArticlesParams, extra: map<string, Json>)
    requires ValidSearchArticles(p)
    ensures ParseSearchArticles(Some(extra + SearchArticlesArgs(p))) == Success(p)
  {
    var m := extra + SearchArticlesArgs(p);
    assert Lookup(m, "query") == Some(JString(p.query));
    assert Lookup(m, "timespan") == Some(JString(p.timespan));
    assert Lookup(m, "maxrecords") == Some(JNumber(p.maxrecords as real));
    assert Lookup(m, "sort") == Some(JString(SortName(p.sort)));
    EnumNamesRoundTrip(p.sort, Volume, FifteenMinutes);
  }

  /** A query alone takes every default of each schema (this lemma and the next). */
  lemma SearchTimelineToneDefaults(q: string)
    requires |q| > 0
    ensures ParseSearchArticles(Some(map["query" := JString(q)])) == Success(SearchArticlesParams(q, "3d", 75, DateDesc))
    ensures ParseTimeline(Some(map["query" := JString(q)])) == Success(TimelineParams(q, "1w", Volume))
    ensures ParseToneChart(Some(map["query" := JString(q)])) == Success(ToneChartParams(q, "3d"))
  {
    DefaultTimespansValid();
  }

  lemma GeoImageMonitorDefaults(q: string)
    requires |q| > 0
    ensures ParseGeoSearch(Some(map["query" := JString(q)])) == Success(GeoSearchParams(q, "1d", 100))
    ensures ParseImageSearch(Some(map["query" := JString(q)])) == Success(ImageSearchParams(q, "3d", 75))
    ensures ParseMonitor(Some(map["query" := JString(q)])) == Success(MonitorParams(q, FifteenMinutes))
  {
    DefaultTimespansValid();
  }

  lemma DefaultTimespansValid()
    ensures ValidateTimespan("3d") && ValidateTimespan("1w") && ValidateTimespan("1d")
  {
    TimespansAccepted();
  }

  /** Out-of-range and fractional record counts are rejected with the failed checks, not clamped. */
  lemma MaxRecordsExamples()
    ensures ParseBoundedInt("maxrecords", Some(JNumber(0.0)), 1, 250, 75) == Failure([Issue(["maxrecords"], TooSmall(1))])
    ensures ParseBoundedInt("maxrecords", Some(JNumber(300.0)), 1, 250, 75) == Failure([Issue(["maxrecords"], TooBig(250))])
    ensures ParseBoundedInt("maxrecords", Some(JNumber(0.5)), 1, 250, 75) ==
            Failure([Issue(["maxrecords"], NotInteger), Issue(["maxrecords"], TooSmall(1))])
    ensures ParseBoundedInt("maxrecords", Some(JNumber(75.0)), 1, 250, 75) == Success(75)
    ensures ParseBoundedInt("maxrecords", Some(JNumber(250.0)), 1, 250, 75) == Success(250)
  {
    assert (0.0).Floor == 0 && (300.0).Floor == 300 && (0.5).Floor == 0;
    assert (75.0).Floor == 75 && (250.0).Floor == 250;
    assert [] + [Issue(["maxrecords"], TooSmall(1))] + [] == [Issue(["maxrecords"], TooSmall(1))];
    assert [] + [] + [Issue(["maxrecords"], TooBig(250))] == [Issue(["maxrecords"], TooBig(250))];
    assert [Issue(["maxrecords"], NotInteger)] + [Issue(["maxrecords"], TooSmall(1))] + [] ==
           [Issue(["maxrecords"], NotInteger), Issue(["maxrecords"], TooSmall(1))];
  }

  /** An empty query is reported with the schema's own message, beside any other field's issues. */
  lemma EmptyQueryMessage(args: map<string, Json>)
    requires Lookup(args, "query") == Some(JString(""))
    ensures var r := ParseToneChart(Some(args));
      r.Failure? && r.error[0] == Issue(["query"], QueryEmpty) && CustomMessage(r.error[0].kind) == Some("Query cannot be empty")
  {
  }
}
