/**
 * The gdelt_geo_search tool: the GEO API's point data as a GeoJSON feature collection, with a
 * text view of the first twenty locations.
 */
module GeoSearchTool {
  import opened Wrappers
  import opened Seqs
  import opened Strings
  import opened GdeltTypes
  import opened ToolSchemas
  import opened ToolOutput

  /** How many locations the text view lists. */
  const TextLimit: nat := 20

  /** The GEO API request: point-data mode with the query, time window and point limit. */
  function Request(p: GeoSearchParams): (r: GeoRequest)
    ensures r.query == p.query && r.mode == "PointData" && r.timespan == Some(p.timespan)
    ensures r.maxpoints == Some(p.maxpoints)
    ensures r.format.None? && r.startdatetime.None? && r.enddatetime.None? && r.geores.None? && r.sortby.None?
  {
    GeoRequest(p.query, "PointData", None, Some(p.timespan), None, None, Some(p.maxpoints), None, None)
  }

  /** `response.features || []`. */
  function Features(response: GeoResponse): seq<GeoFeature> {
    response.features.GetOr([])
  }

  function CoordinatesText(g: Point): string {
    "[" + IntToString(g.latitude) + ", " + IntToString(g.longitude) + "]"
  }

  /** One location: its name, mention count and coordinates as [latitude, longitude]. */
  function GeoBlock(n: nat, f: GeoFeature): string {
    NatToString(n) + ". " + f.properties.name + " (" + IntToString(f.properties.count) + " mentions)\n   Coordinates: " +
    CoordinatesText(f.geometry)
  }

  function GeoHeader(n: nat): string {
    "Found " + NatToString(n) + " geographic locations:\n\n"
  }

  function GeoText(features: seq<GeoFeature>): string {
    GeoHeader(|features|) + Truncated(features, TextLimit, GeoBlock)
  }

  /**
   * The handler after the fetch: the response's features unchanged as a FeatureCollection,
   * with their count.
   */
  function Handle(p: GeoSearchParams, response: GeoResponse): (r: ToolResult)
    ensures r.structured == FeatureCollection("FeatureCollection", Features(response), |Features(response)|)
    ensures r.text == GeoText(Features(response))
  {
    var features := Features(response);
    ToolResult(GeoText(features), FeatureCollection("FeatureCollection", features, |features|))
  }

  /** The coordinates show the latitude first, although GeoJSON stores the longitude first. */
  lemma CoordinatesAreLatitudeFirst(n: nat, f: GeoFeature)
    ensures EndsWith(GeoBlock(n, f), CoordinatesText(f.geometry))
    ensures StartsWith(CoordinatesText(f.geometry), "[" + IntToString(f.geometry.latitude) + ", ")
  {
    var g := f.geometry;
    EndsWithAppended(NatToString(n) + ". " + f.properties.name + " (" + IntToString(f.properties.count) + " mentions)\n   Coordinates: ",
      CoordinatesText(g));
    var head := "[" + IntToString(g.latitude) + ", ";
    assert CoordinatesText(g) == head + (IntToString(g.longitude) + "]");
    assert CoordinatesText(g)[..|head|] == head;
  }

  lemma {:induction false} BlockEndsWithBracket(n: nat, f: GeoFeature)
    ensures |GeoBlock(n, f)| > 0 && GeoBlock(n, f)[|GeoBlock(n, f)| - 1] == ']'
  {
    var c := CoordinatesText(f.geometry);
    EndsWithAppended(NatToString(n) + ". " + f.properties.name + " (" + IntToString(f.properties.count) + " mentions)\n   Coordinates: ", c);
    EndsWithAppended("[" + IntToString(f.geometry.latitude) + ", " + IntToString(f.geometry.longitude), "]");
    EndsWithTransitive(GeoBlock(n, f), c, "]");
    EndsWithLastChar(GeoBlock(n, f), "]");
  }

  lemma HeaderEndsWithNewline(n: nat)
    ensures |GeoHeader(n)| > 0 && GeoHeader(n)[|GeoHeader(n)| - 1] == '\n'
  {
    EndsWithAppended("Found " + NatToString(n) + " geographic locations:\n", "\n");
    EndsWithLastChar(GeoHeader(n), "\n");
  }

  /** The text ends with the truncation note exactly when there are more than twenty locations. */
  lemma {:induction false} NoteIffMoreThanTwenty(features: seq<GeoFeature>)
    ensures EndsWith(GeoText(features), MoreNote) <==> |features| > TextLimit
  {
    var text, header := GeoText(features), GeoHeader(|features|);
    TruncatedShowsPrefix(features, TextLimit, GeoBlock);
    MoreNoteEndsWithParenthesis();
    if |features| > TextLimit {
      var shown := Join(Numbered(features[..TextLimit], GeoBlock), "\n\n");
      assert text == (header + shown) + MoreNote;
      EndsWithAppended(header + shown, MoreNote);
    } else {
      var blocks := Numbered(features, GeoBlock);
      assert text == header + Join(blocks, "\n\n");
      if |features| == 0 {
        assert text == header;
        HeaderEndsWithNewline(0);
      } else {
        var last := blocks[|blocks| - 1];
        JoinEndsWithLast(blocks, "\n\n");
        EndsWithAppended(header, Join(blocks, "\n\n"));
        EndsWithTransitive(text, Join(blocks, "\n\n"), last);
        BlockEndsWithBracket(|features|, features[|features| - 1]);
        EndsWithLastChar(text, last);
      }
      EndsWithLastChar(text, MoreNote);
    }
  }
}
