# GDELT MCP server — a verified model of its tool layer

The GDELT MCP server exposes six tools over the Model Context Protocol. ListTools names
them. CallTool runs one of them in five steps:

1. look the tool up by name;
2. validate the arguments with the tool's Zod schema, which fills in the defaults;
3. build a request record for the GDELT DOC or GEO API and fetch it;
4. reshape the JSON response into a text summary plus a structured payload;
5. turn any failure into an `isError` reply.

This project models that layer in Dafny and proves what it promises. The API itself is a
parameter: `GdeltServer.Env` gives, for each request record, the response or error message
the server would receive. Each handler is a pure function of its parameters and of that
response, and a separate `Request` function builds each tool's request record.

Modules, one per source file:

| source file | module(s) | file |
|---|---|---|
| `src/gdelt/utils.ts` | `GdeltUtils` (query string, timespan); `GdeltDates` and `GdeltDateFacts` (14-digit timestamps and their round trips) | `utils.dfy` |
| `src/schemas/tool-schemas.ts` | `ToolSchemas` | `schemas.dfy` |
| `src/tools/*.ts` | `SearchArticlesTool`, `TimelineTool`, `ToneChartTool`, `GeoSearchTool`, `ImageSearchTool`, `MonitorTool` | one file each |
| `src/server.ts` | `GdeltServer` | `server.dfy` |
| `src/gdelt/types.ts` | `GdeltTypes` (request and response records) | `types.dfy` |

Shared helpers:

- `Wrappers`: `Option` and `Result`.
- `Seqs`: `Array.prototype.filter`, characterised as an ordered subsequence.
- `Strings`: JavaScript's `String(n)`, `padStart`, `join` and `parseInt`. `parseInt` skips
  leading whitespace and accepts a sign and a `0x` prefix.
- `ToolOutput`: the handlers' result types, numbered text blocks and the truncation note.

`buildQueryString` is a loop that appends to a `URLSearchParams` accumulator. It is therefore
a method with a loop invariant, proved against the function `PresentPairs`. Everything else
in the source is expressions over immutable values and is modelled as functions.

One dead path in the source: the timeline handler's fallback `params.timeline_type ||
'volume'` never fires. The schema has already filled in the default type, so `TimelineTool.Mode`
takes the type as given (`TimelineTool.DefaultTypeIsVolume`).

## Model

| member | source | states |
|---|---|---|
| GdeltUtils.BuildQueryString | src/gdelt/utils.ts:6-16 | the query string is the serialization of exactly the present (neither undefined nor null) entries, in entry order, with values stringified |
| GdeltUtils.PresentPairs | src/gdelt/utils.ts:9-13 | never more pairs than entries |
| GdeltUtils.PresentPairsAppend | src/gdelt/utils.ts:9-13 | the pairs of a concatenation are the concatenation of the pairs |
| GdeltUtils.PresentPairsIsFilterMap | src/gdelt/utils.ts:9-13 | the pairs are the present entries, filtered in order, each stringified |
| GdeltUtils.QueryPairsFollowPresentEntries | src/gdelt/utils.ts:9-12 | a pair is emitted for entry j exactly when entry j is present; pairs follow strictly increasing entry positions and carry the entry's key and String(value) |
| GdeltUtils.Serialize | src/gdelt/utils.ts:15 | no pairs give the empty string; one pair gives its encoded name, `=` and its encoded value; more give the first pair, `&`, then the serialization of the rest |
| GdeltUtils.NoPresentValuesGiveEmptyQuery | src/gdelt/utils.ts:7-15 | with no present value, there are no pairs and the query string is empty, whatever the encoding |
| GdeltUtils.AbsentKeyIsOmitted | src/gdelt/utils.ts:10-11 | `{a: 1, b: undefined, c: "x"}` gives the pairs a=1 and c=x |
| GdeltUtils.ValidateTimespan | src/gdelt/utils.ts:22-25 | true exactly when the string is one or more ASCII digits followed by exactly one of min, h, d, w, m and nothing else |
| GdeltUtils.SplitIsUnique | src/gdelt/utils.ts:23 | a digits/unit split of a timespan can only fall at the end of the leading digit run |
| GdeltUtils.TimespansAccepted | src/gdelt/utils.ts:20-24 | 3d, 0h, 15min, 2m, 1w and 1d are accepted |
| GdeltUtils.TimespansRejected | src/gdelt/utils.ts:22-25 | "3 days", "d3" and "3" are rejected |
| GdeltUtils.EmptyAndBareTimespansRejected | src/gdelt/utils.ts:22-25 | the empty string, a bare unit "min" and "3dd" are rejected |
| Strings.ParseInt | src/gdelt/utils.ts:31-36 | after the leading whitespace, an optional sign and an optional 0x prefix (which makes the radix 16), parseInt is NaN exactly when no digit of the radix follows; otherwise it is the value of the longest run of such digits, negated after a minus sign |
| Strings.NonNumericIsNaN | src/gdelt/utils.ts:34-36 | a string whose first character is no whitespace, sign or digit is NaN to parseInt |
| Strings.ParseIntOfDigits | src/gdelt/utils.ts:31-36 | on a non-empty run of decimal digits parseInt yields their decimal value |
| Strings.NatToString | src/gdelt/utils.ts:46-52 | String(n) is non-empty, all digits, has n as its decimal value, and has no leading zero |
| Strings.PadTwoDigits | src/gdelt/utils.ts:46-50 | padStart(2, '0') of a two-digit number is its String |
| Strings.PadOneDigit | src/gdelt/utils.ts:46-50 | padStart(2, '0') of a number below 10 is "0" and its digit |
| Strings.TwoDigitsRoundTrip | src/gdelt/utils.ts:32-50 | padStart(2, '0') of the value of any two digits gives the same two digits back |
| Strings.TrimStartIsSuffix | src/gdelt/utils.ts:31 | parseInt's whitespace skip leaves a suffix that starts with no whitespace, after whitespace only |
| Strings.LeadingRadixDigitsMaximal | src/gdelt/utils.ts:31 | parseInt reads the longest prefix of digits of its radix |
| GdeltDates.ParseGdeltDate | src/gdelt/utils.ts:30-39 | the date is invalid exactly when the year, month or day field is NaN; otherwise year, month (minus one) and day are the values read at offsets 0-3, 4-5 and 6-7, and hour, minute and second are the values read at 8-9, 10-11 and 12-13, or 0 where that field is NaN |
| GdeltDates.FormatGdeltDate | src/gdelt/utils.ts:44-53 | an invalid date prints NaN six times; a real date prints its year first, followed by at least ten more characters (five fields padded to two) |
| GdeltDateFacts.TimeFieldsDefaultToZero | src/gdelt/utils.ts:34-36 | an hour, minute or second field that is missing, or that starts with something other than whitespace, a sign or a digit (as in 20240101ab), is 0 in the parsed date |
| GdeltDateFacts.CombineFields | src/gdelt/utils.ts:30-39 | the date is built from the six fields, with the month made zero-based |
| GdeltDateFacts.DigitField | src/gdelt/utils.ts:31-36 | a field inside a digit string is read as its decimal value |
| GdeltDateFacts.FieldPastEnd | src/gdelt/utils.ts:34-36 | a field past the end of the string reads as NaN |
| GdeltDateFacts.ParseReadsFixedOffsets | src/gdelt/utils.ts:31-36 | on 14 digits, year is read from offsets 0-3, month 4-5 (minus one), day 6-7, hour 8-9, minute 10-11, second 12-13 |
| GdeltDateFacts.DateOnlyIsMidnight | src/gdelt/utils.ts:34-36 | an 8-digit YYYYMMDD string is midnight of that day |
| GdeltDateFacts.FormatOfParts | src/gdelt/utils.ts:52 | formatGdeltDate lays year, month, day, hour, minute and second end to end |
| GdeltDateFacts.ParseOfParts | src/gdelt/utils.ts:30-39 | digit groups of widths 4, 2, 2, 2, 2, 2 laid end to end form 14 digits that parse back to the groups' values |
| GdeltDateFacts.FormatOfTimestampParts | src/gdelt/utils.ts:44-53 | formatting the date six valid timestamp groups name writes the groups back |
| GdeltDateFacts.FormatParseRoundTrip | src/gdelt/utils.ts:30-53 | formatGdeltDate(parseGdeltDate(s)) == s for s made of a 4-digit year without leading zero and two-digit fields naming a real date and time |
| GdeltDateFacts.FormatParseRoundTripOfString | src/gdelt/utils.ts:30-53 | the same round trip, stated on the 14-character string itself |
| GdeltDateFacts.FourDigitYear | src/gdelt/utils.ts:45 | a year in 1000-9999 prints as four digits without a leading zero |
| GdeltDateFacts.Pad2Digits | src/gdelt/utils.ts:46-50 | each padded field below 100 is two digits worth its value |
| GdeltDateFacts.FormatGivesDigitGroups | src/gdelt/utils.ts:44-53 | formatting a real date with a 4-digit year gives six digit groups worth its fields (month plus one) |
| GdeltDateFacts.ParseFormatRoundTrip | src/gdelt/utils.ts:30-53 | formatting a real date of a 4-digit year gives 14 digits that parse back to the same date |
| ToolSchemas.ParseQuery | src/schemas/tool-schemas.ts:6 | accepts exactly the non-empty strings, unchanged; the empty string gets the "Query cannot be empty" issue |
| ToolSchemas.ParseTimespan | src/schemas/tool-schemas.ts:7 | an absent value takes the default, which is then checked like a supplied one; a supplied value is accepted exactly when it is a string matching the timespan pattern |
| ToolSchemas.NumberIssues | src/schemas/tool-schemas.ts:8 | no issue exactly when the number is an integer within [lo, hi]; each failed check (int, min, max) gives its own issue |
| ToolSchemas.ParseBoundedInt | src/schemas/tool-schemas.ts:8 | (also maxpoints, line 43) an absent value takes the default; a supplied one is accepted exactly when it is an integral number within range, and is never clamped |
| ToolSchemas.ParseEnum | src/schemas/tool-schemas.ts:9 | (also timeline_type and interval, lines 25 and 60) an absent value takes the default; a named option is accepted as that option; anything else is a single issue |
| ToolSchemas.SortFromName | src/schemas/tool-schemas.ts:9 | recognises exactly the five sort names, each as the order of that name |
| ToolSchemas.TimelineTypeFromName | src/schemas/tool-schemas.ts:25 | recognises exactly volume, tone, language and sourcecountry |
| ToolSchemas.IntervalFromName | src/schemas/tool-schemas.ts:60 | recognises exactly 15min, 1h and 3h |
| ToolSchemas.EnumNamesRoundTrip | src/schemas/tool-schemas.ts:9 | (sort, and the enumerations of lines 25 and 60) each enumeration value is recognised from its own name |
| ToolSchemas.ParseSearchArticles | src/schemas/tool-schemas.ts:12-17 | success gives valid parameters; success exactly when every field succeeds, with the record of the field values; failure gives all field issues in field order; missing arguments fail with the single Required issue |
| ToolSchemas.ParseTimeline | src/schemas/tool-schemas.ts:22-26 | the same for query, timespan (default 1w) and timeline_type (default volume); missing arguments fail with the single Required issue |
| ToolSchemas.ParseToneChart | src/schemas/tool-schemas.ts:31-34 | the same for query and timespan (default 3d); missing arguments fail with the single Required issue |
| ToolSchemas.ParseGeoSearch | src/schemas/tool-schemas.ts:40-44 | the same for query, timespan (default 1d) and maxpoints (1-1000, default 100); missing arguments fail with the single Required issue |
| ToolSchemas.ParseImageSearch | src/schemas/tool-schemas.ts:49-53 | the same for query, timespan (default 3d) and maxrecords (1-250, default 75); missing arguments fail with the single Required issue |
| ToolSchemas.ParseMonitor | src/schemas/tool-schemas.ts:58-61 | the same for query and interval (default 15min); missing arguments fail with the single Required issue |
| ToolSchemas.SearchArticlesAcceptsValid | src/schemas/tool-schemas.ts:12-17 | every valid parameter set, written out as arguments beside any other keys, is accepted as it is |
| ToolSchemas.SearchTimelineToneDefaults | src/schemas/tool-schemas.ts:12-34 | a query alone gives timespan 3d, maxrecords 75, sort DateDesc; timespan 1w, type volume; timespan 3d |
| ToolSchemas.GeoImageMonitorDefaults | src/schemas/tool-schemas.ts:40-61 | a query alone gives timespan 1d, maxpoints 100; timespan 3d, maxrecords 75; interval 15min |
| ToolSchemas.DefaultTimespansValid | src/schemas/tool-schemas.ts:12-44 | the default timespans 3d, 1w and 1d pass the timespan check |
| ToolSchemas.MaxRecordsExamples | src/schemas/tool-schemas.ts:8 | 0, 300 and 0.5 are rejected with the failed checks; 75 and 250 are accepted |
| ToolSchemas.EmptyQueryMessage | src/schemas/tool-schemas.ts:6 | an empty query fails with "Query cannot be empty" as the first issue |
| Seqs.Filter | src/tools/image-search.ts:22 | the kept elements satisfy the predicate and come from the input; every satisfying input element is kept |
| Seqs.FilterIsOrderedSubsequence | src/tools/image-search.ts:22 | filter keeps exactly the satisfying positions, in increasing order |
| ToolOutput.Numbered | src/tools/search-articles.ts:24-29 | one block per item, the i-th numbered i+1, in order |
| ToolOutput.Truncated | src/tools/geo-search.ts:25-31 | with more items than the limit the view ends with the note; otherwise it is every item's numbered block, joined by blank lines |
| ToolOutput.TruncatedShowsPrefix | src/tools/geo-search.ts:25-31 | a truncated view shows the first min(n, limit) items, then the note exactly when n > limit, and otherwise all n items |
| ToneChartTool.Request | src/tools/tone-chart.ts:11-15 | mode ToneChart with the query and timespan unchanged, no other field set |
| ToneChartTool.Rename | src/tools/tone-chart.ts:22-25 | the chart has one entry per bin, in order, with tone = bin and the same count |
| ToneChartTool.SignFiltersPartition | src/tools/tone-chart.ts:28-30 | the negative, neutral and positive groups together hold every entry exactly once |
| ToneChartTool.SumCounts | src/tools/tone-chart.ts:32-34 | non-negative counts sum to a non-negative total; all-zero counts sum to 0 |
| ToneChartTool.SumCountsAppend | src/tools/tone-chart.ts:32-34 | the sum of counts of a concatenation is the sum of the parts' sums |
| ToneChartTool.SumFilterCons | src/tools/tone-chart.ts:28-34 | a group's sum gains an entry's count exactly when the entry is in the group |
| ToneChartTool.SignSumsAddUp | src/tools/tone-chart.ts:32-35 | negative + neutral + positive counts equal the sum of all the chart's counts |
| ToneChartTool.Summarize | src/tools/tone-chart.ts:28-35 | negative, neutral and positive are the count sums of the entries with tone < 0, = 0 and > 0; the total is the sum of every entry's count, and it is the sum of the three group counts |
| ToneChartTool.ToneLines | src/tools/tone-chart.ts:45-47 | one `Tone t: c articles` line per chart entry, in chart order |
| ToneChartTool.Handle | src/tools/tone-chart.ts:19-59 | the structured chart is the bins renamed, entry for entry; the summary's negative, neutral and positive are the count sums of the entries with tone < 0, = 0 and > 0, and its total is the sum of all counts and of the three groups; the text is built from that chart and summary |
| ToneChartTool.MissingChartIsEmpty | src/tools/tone-chart.ts:19 | no tonechart field gives an empty chart and all-zero sums |
| ToneChartTool.SummaryExample | src/tools/tone-chart.ts:28-35 | bins -2:10, 0:5, 3:5 give negative 10, neutral 5, positive 5, total 20 |
| TimelineTool.Mode | src/tools/timeline.ts:12-17 | every timeline type is sent as one of the API's Timeline modes |
| TimelineTool.ModeIsInjective | src/tools/timeline.ts:12-17 | distinct timeline types get distinct modes |
| TimelineTool.Request | src/tools/timeline.ts:19-25 | the type's mode with the query and timespan, no other field set |
| TimelineTool.DefaultTypeIsVolume | src/tools/timeline.ts:19 | with no type given, the parameters default to volume and the request mode is TimelineVol |
| TimelineTool.Extract | src/tools/timeline.ts:28 | a missing or empty timeline gives no entries; otherwise the entries are the first series' data, none when it has no data |
| TimelineTool.FirstSeriesOnly | src/tools/timeline.ts:28 | the entries are the first series' data; later series are ignored |
| TimelineTool.MissingTimelineIsEmpty | src/tools/timeline.ts:28 | a missing timeline, an empty one, or a first series without data give no entries |
| TimelineTool.EntryLines | src/tools/timeline.ts:34-36 | one `date: value` line per entry, in order |
| TimelineTool.Handle | src/tools/timeline.ts:28-44 | the structured timeline is the extracted entries, type echoes the parameter, count is their number |
| ImageSearchTool.Request | src/tools/image-search.ts:13-18 | mode ArtList with query, timespan and maxrecords, and no sort |
| ImageSearchTool.Images | src/tools/image-search.ts:25-33 | one image record per article, in order |
| ImageSearchTool.Handle | src/tools/image-search.ts:21-51 | the kept articles are the response's articles filtered by a present, non-empty social image; one image record per kept article with its image as URL and every other field absent; count is their number |
| ImageSearchTool.KeptArticlesAreOrderedSubsequence | src/tools/image-search.ts:21-22 | the kept articles are exactly the response articles with an image, at strictly increasing positions |
| ImageSearchTool.TwoOfFiveExample | src/tools/image-search.ts:22-26 | of five articles where two have no image field and one has an empty image, the other two are kept, in order, with their images as URLs |
| ImageSearchTool.MissingArticlesIsEmpty | src/tools/image-search.ts:21 | no articles field gives no articles, no images and count 0 |
| GeoSearchTool.Request | src/tools/geo-search.ts:12-17 | mode PointData with query, timespan and maxpoints, no other field set |
| GeoSearchTool.Handle | src/tools/geo-search.ts:19-39 | the payload is a FeatureCollection of the response's features unchanged (none when absent) with their count |
| GeoSearchTool.CoordinatesAreLatitudeFirst | src/tools/geo-search.ts:29 | each location block ends with its coordinates, printed latitude first |
| GeoSearchTool.BlockEndsWithBracket | src/tools/geo-search.ts:29 | every location block ends with the closing bracket of its coordinates |
| GeoSearchTool.HeaderEndsWithNewline | src/tools/geo-search.ts:25 | the header line ends with a newline |
| GeoSearchTool.NoteIffMoreThanTwenty | src/tools/geo-search.ts:25-31 | the text ends with the "... and more" note exactly when there are more than 20 features |
| MonitorTool.Request | src/tools/monitor.ts:11-17 | mode ArtList, timespan = the interval, maxrecords 250, sort DateDesc, whatever the parameters |
| MonitorTool.IntervalIsTimespan | src/tools/monitor.ts:14 | every interval is a valid timespan of the API |
| MonitorTool.Handle | src/tools/monitor.ts:19-41 | the payload holds the response's articles unchanged, their count, and echoes interval and query |
| MonitorTool.TextShowsFirstTen | src/tools/monitor.ts:25-32 | up to 10 articles are all listed; beyond 10 only the first 10 are, followed by the note |
| MonitorTool.MissingArticlesIsEmpty | src/tools/monitor.ts:19 | no articles field gives no articles and count 0 |
| SearchArticlesTool.Request | src/tools/search-articles.ts:11-17 | mode ArtList passing query, timespan, maxrecords and sort unchanged |
| SearchArticlesTool.RequestSortIsAccepted | src/tools/search-articles.ts:16 | the sort name sent is one the schema reads back as the same order |
| SearchArticlesTool.Handle | src/tools/search-articles.ts:19-37 | the payload holds the response's articles unchanged with their count; the text has "Found N articles" and one numbered block per article |
| SearchArticlesTool.MissingArticlesIsEmpty | src/tools/search-articles.ts:19 | no articles field gives no articles and count 0 |
| GdeltServer.LookupTool | src/server.ts:58-90 | a name is resolved only to the tool of that name |
| GdeltServer.LookupFindsEveryTool | src/server.ts:58-87 | each tool is found under its own name; distinct tools have distinct names |
| GdeltServer.ListTools | src/server.ts:40-51 | the definitions, one per tool in the fixed order |
| GdeltServer.ListToolsCoversEveryTool | src/server.ts:40-51 | six definitions; each listed name dispatches to its tool; no name repeats; every tool is listed |
| GdeltServer.Validate | src/server.ts:59-86 | a validated call always belongs to the tool named |
| GdeltServer.ValidateUsesOwnSchema | src/server.ts:58-87 | each tool validates with its own schema, which decides success, parameters and issues |
| GdeltServer.ValidatedCallsAreValid | src/server.ts:59-86 | every validated call's parameters meet all of its schema's constraints |
| GdeltServer.Run | src/server.ts:58-102 | exactly one request, the call's own, is sent; a fetch error becomes `Error: <message>`; a response gives the handler's result unchanged |
| GdeltServer.CallTool | src/server.ts:54-106 | an unknown name gives `Error: Unknown tool: <name>` and sends nothing; a rejected argument set gives the schema's error and sends nothing; otherwise the call runs; at most one request; a reply is an error exactly when it has no structured content |
| GdeltServer.ValidArgumentsReachTheApi | src/server.ts:58-87 | arguments the schema accepts reach the API as exactly that tool's request |
| GdeltServer.SearchWithDefaults | src/server.ts:59-62 | a search with only a query sends mode ArtList, timespan 3d, maxrecords 75, sort DateDesc, and returns the response's articles with their count |

## Left out

- `src/gdelt/client.ts` is not part of this model. It is the HTTP client: `fetch`, headers,
  JSON decoding, forcing the `format` field and prefixing error messages. `Env.fetchDoc`
  and `Env.fetchGeo` stand for it.
- `src/index.ts` (process-level exception handlers) is not part of this model. The same goes
  for the SDK `Server` construction, the stdio transport and `startServer` in `src/server.ts`.
- The rethrow at src/server.ts:104 is not modelled. Every failure in the model is a message,
  which is the `instanceof Error` case.
- The tone percentages `((count / total) * 100).toFixed(1)` are floating point and give NaN
  when the total is 0. They are the parameter `Env.percent`. The text around them is kept.
- The percent-encoding of `URLSearchParams` (the application/x-www-form-urlencoded
  serializer of section 5.2 of the WHATWG URL Standard) is the parameter `encode` of
  `GdeltUtils.Serialize`. The serializer's `name=value` and `&` structure is kept.
- JavaScript `Date` behaviour is left out: rollover of out-of-range fields, the local
  timezone and DST, and the mapping of years 0-99 to 1900-1999. `GdeltDates.Date` holds
  the raw fields that the constructor receives.
- GdeltDates.FormatGdeltDate: requires an invalid date or one whose fields form a real
  calendar date and time. A JavaScript Date's getters always return such fields, so this is
  a property of the argument rather than a restriction on callers.
- Zod's own messages and the exact issue records are left out. Issues are abstract
  `IssueKind` values; only the messages the schemas set themselves are kept
  (`ToolSchemas.CustomMessage`). The message of the thrown `ZodError` is the parameter
  `Env.issuesMessage`.
- The tool definitions' descriptions and JSON input schemas are left out; only their
  names are modelled (`GdeltServer.ToolDefinition`).
- Numbers in API responses are integers in the model: counts, timeline values and
  coordinates. Fractional coordinates and JavaScript's number-to-string of fractions are not
  modelled. Tool arguments keep real numbers, so fractional `maxrecords` is rejected as the
  schema does.
- GeoJSON geometry is reduced to a Point's two coordinates.
- Response records follow `src/gdelt/types.ts`, with the text fields of an article always
  present. A missing title or URL, which the text would show as `undefined`, is not modelled.
- The handlers are total only because responses are typed. A response that does not match
  `src/gdelt/types.ts` makes the source handler throw a TypeError. src/server.ts:92-102 turns
  that into an `Error: ...` reply. That path is not modelled.
