/**
 * The gdelt_timeline tool: one of four DOC API timeline modes, and the data of the first
 * series the API returns.
 */
module TimelineTool {
  import opened Wrappers
  import opened Strings
  import opened GdeltTypes
  import opened ToolSchemas
  import opened ToolOutput

  /**
   * The DOC API mode of a timeline type. The handler's `|| 'volume'` fallback never fires,
   * because the schema has already filled in the default type.
   */
  function Mode(t: TimelineType): (m: string)
    ensures StartsWith(m, "Timeline")
  {
    match t
    case Volume => "TimelineVol"
    case Tone => "TimelineTone"
    case Language => "TimelineLang"
    case SourceCountry => "TimelineSourceCountry"
  }

  /** Distinct timeline types ask for distinct modes. */
  lemma ModeIsInjective(a: TimelineType, b: TimelineType)
    ensures Mode(a) == Mode(b) ==> a == b
  {
  }

  /** The DOC API request: the type's mode with the query and time window, nothing else. */
  function Request(p: TimelineParams): (r: DocRequest)
    ensures r.query == p.query && r.mode == Mode(p.timelineType) && r.timespan == Some(p.timespan)
    ensures r.format.None? && r.startdatetime.None? && r.enddatetime.None?
    ensures r.maxrecords.None? && r.sort.None? && r.timelinesmooth.None?
  {
    DocQuery(p.query, Mode(p.timelineType), Some(p.timespan), None, None)
  }

  /** `response.timeline?.[0]?.data || []`. */
  function Extract(response: DocResponse): (r: seq<TimelineEntry>)
    ensures response.timeline.None? || response.timeline == Some([]) ==> r == []
    ensures response.timeline.Some? && |response.timeline.value| > 0 ==> r == response.timeline.value[0].data.GetOr([])
  {
    match response.timeline
    case None => []
    case Some(series) => if |series| == 0 then [] else series[0].data.GetOr([])
  }

  /** Only the first series counts: the entries are its data, and the later series are ignored. */
  lemma FirstSeriesOnly(response: DocResponse, first: TimelineSeries, later: seq<TimelineSeries>)
    requires response.timeline == Some([first] + later)
    ensures Extract(response) == first.data.GetOr([])
    ensures Extract(response) == Extract(response.(timeline := Some([first])))
  {
  }

  /** No timeline, no series, or a first series without data: no entries. */
  lemma MissingTimelineIsEmpty(response: DocResponse)
    ensures response.timeline.None? ==> Extract(response) == []
    ensures response.timeline == Some([]) ==> Extract(response) == []
    ensures response.timeline.Some? && |response.timeline.value| > 0 && response.timeline.value[0].data.None?
        ==> Extract(response) == []
  {
  }

  function EntryLine(e: TimelineEntry): string {
    e.date + ": " + IntToString(e.value)
  }

  /** One line per timeline entry, in order. */
  function EntryLines(timeline: seq<TimelineEntry>): (lines: seq<string>)
    ensures |lines| == |timeline|
    ensures forall i :: 0 <= i < |timeline| ==> lines[i] == EntryLine(timeline[i])
  {
    if timeline == [] then [] else [EntryLine(timeline[0])] + EntryLines(timeline[1..])
  }

  /** The text view: the type's name, then one `date: value` line per entry. */
  function TimelineText(t: TimelineType, timeline: seq<TimelineEntry>): string {
    "Timeline analysis (" + TimelineTypeName(t) + "):\n\n" +
    Join(EntryLines(timeline), "\n")
  }

  /** The handler after the fetch: the first series' entries, the requested type and their count. */
  function Handle(p: TimelineParams, response: DocResponse): (r: ToolResult)
    ensures r.structured.TimelineData?
    ensures r.structured.timeline == Extract(response)
    ensures r.structured.timelineType == p.timelineType
    ensures r.structured.count == |r.structured.timeline|
    ensures r.text == TimelineText(p.timelineType, r.structured.timeline)
  {
    var timeline := Extract(response);
    ToolResult(TimelineText(p.timelineType, timeline), TimelineData(timeline, p.timelineType, |timeline|))
  }

  /** With no type given, the schema's default makes the request a volume timeline. */
  lemma DefaultTypeIsVolume(q: string)
    requires QueryOk(q)
    ensures ParseTimeline(Some(map["query" := JString(q)])) == Success(TimelineParams(q, "1w", Volume))
    ensures Request(TimelineParams(q, "1w", Volume)).mode == "TimelineVol"
  {
    SearchTimelineToneDefaults(q);
  }
}
