/** The helpers of src/gdelt/utils.ts: query strings, timespans and 14-digit timestamps. */
module GdeltUtils {
  import opened Wrappers
  import opened Seqs
  import opened Strings

  // ---------------------------------------------------------------------------
  // buildQueryString

  /** A value of a request record's entry, as `Object.entries` yields it. */
  datatype Value = Undefined | Null | Str(s: string) | Num(n: int) | Bool(b: bool)

  predicate IsPresent(entry: (string, Value)) {
    !entry.1.Undefined? && !entry.1.Null?
  }

  /** `String(value)` of a present value. */
  function Stringify(v: Value): string
    requires !v.Undefined? && !v.Null?
  {
    match v
    case Str(s) => s
    case Num(n) => IntToString(n)
    case Bool(b) => if b then "true" else "false"
  }

  function ToPair(entry: (string, Value)): (string, string)
    requires IsPresent(entry)
  {
    (entry.0, Stringify(entry.1))
  }

  /** The name/value list that the URLSearchParams accumulator holds after the entries. */
  function PresentPairs(entries: seq<(string, Value)>): (r: seq<(string, string)>)
    ensures |r| <= |entries|
  {
    if entries == [] then []
    else
      var last := entries[|entries| - 1];
      PresentPairs(entries[..|entries| - 1]) + (if IsPresent(last) then [ToPair(last)] else [])
  }

  /**
   * The application/x-www-form-urlencoded serializer of the WHATWG URL Standard
   * (section 5.2): `name=value` tuples joined by `&`, each name and value passed through
   * the byte-level percent-encoding, here the parameter `encode`.
   */
  function Serialize(pairs: seq<(string, string)>, encode: string -> string): (r: string)
    ensures pairs == [] ==> r == ""
    ensures |pairs| == 1 ==> r == encode(pairs[0].0) + "=" + encode(pairs[0].1)
    ensures |pairs| > 1 ==> r == encode(pairs[0].0) + "=" + encode(pairs[0].1) + "&" + Serialize(pairs[1..], encode)
  {
    var tuples := seq(|pairs|, i requires 0 <= i < |pairs| => encode(pairs[i].0) + "=" + encode(pairs[i].1));
    if |pairs| > 1 then
      assert tuples[1..] == seq(|pairs| - 1, i requires 0 <= i < |pairs| - 1 => encode(pairs[1..][i].0) + "=" + encode(pairs[1..][i].1));
      Join(tuples, "&")
    else Join(tuples, "&")
  }

  /** `buildQueryString(params)`: append every present entry, then serialize. */
  method BuildQueryString(entries: seq<(string, Value)>, encode: string -> string) returns (query: string)
    ensures query == Serialize(PresentPairs(entries), encode)
  {
    var searchParams: seq<(string, string)> := [];
    var i := 0;
    while i < |entries|
      invariant 0 <= i <= |entries|
      invariant searchParams == PresentPairs(entries[..i])
    {
      var (key, value) := entries[i];
      assert entries[..i + 1][..i] == entries[..i];
      if !value.Undefined? && !value.Null? {
        searchParams := searchParams + [(key, Stringify(value))];
      }
      i := i + 1;
    }
    assert entries[..|entries|] == entries;
    query := Serialize(searchParams, encode);
  }

  /** PresentPairs appends the pairs of a concatenation. */
  lemma {:induction false} PresentPairsAppend(a: seq<(string, Value)>, b: seq<(string, Value)>)
    ensures PresentPairs(a + b) == PresentPairs(a) + PresentPairs(b)
    decreases |b|
  {
    if b == [] {
      assert a + b == a;
    } else {
      var init := b[..|b| - 1];
      assert (a + b)[..|a + b| - 1] == a + init;
      PresentPairsAppend(a, init);
    }
  }

  /** PresentPairs is `Filter(entries, IsPresent)` with every kept entry stringified. */
  lemma {:induction false} PresentPairsIsFilterMap(entries: seq<(string, Value)>)
    ensures var kept := Filter(entries, IsPresent);
      |PresentPairs(entries)| == |kept| &&
      forall k :: 0 <= k < |kept| ==> IsPresent(kept[k]) && PresentPairs(entries)[k] == ToPair(kept[k])
  {
    if entries != [] {
      var head, tail := entries[0], entries[1..];
      assert entries == [head] + tail;
      PresentPairsAppend([head], tail);
      assert [head][..0] == [];
      PresentPairsIsFilterMap(tail);
    }
  }

  /**
   * A pair is emitted for an entry exactly when its value is neither undefined nor null,
   * the pairs follow the entries' order, and each carries its entry's key and stringified value.
   */
  lemma QueryPairsFollowPresentEntries(entries: seq<(string, Value)>)
    ensures var pairs, ix := PresentPairs(entries), KeptIndices(entries, IsPresent, 0);
      |pairs| == |ix| &&
      (forall k :: 0 <= k < |ix| ==>
         ix[k] < |entries| && IsPresent(entries[ix[k]]) &&
         pairs[k] == (entries[ix[k]].0, Stringify(entries[ix[k]].1))) &&
      (forall k, l :: 0 <= k < l < |ix| ==> ix[k] < ix[l]) &&
      (forall j :: 0 <= j < |entries| ==> (IsPresent(entries[j]) <==> j in ix))
  {
    PresentPairsIsFilterMap(entries);
    FilterIsOrderedSubsequence(entries, IsPresent);
  }

  /** With no present value the query string is empty, whatever the encoding. */
  lemma {:induction false} NoPresentValuesGiveEmptyQuery(entries: seq<(string, Value)>, encode: string -> string)
    requires forall j :: 0 <= j < |entries| ==> !IsPresent(entries[j])
    ensures PresentPairs(entries) == []
    ensures Serialize(PresentPairs(entries), encode) == ""
  {
    if entries != [] {
      NoPresentValuesGiveEmptyQuery(entries[..|entries| - 1], encode);
    }
  }

  /** The example of `{a: 1, b: undefined, c: "x"}`: b is omitted. */
  lemma AbsentKeyIsOmitted()
    ensures PresentPairs([("a", Num(1)), ("b", Undefined), ("c", Str("x"))]) == [("a", "1"), ("c", "x")]
  {
    var e := [("a", Num(1)), ("b", Undefined), ("c", Str("x"))];
    assert e[..2][..1] == [("a", Num(1))];
    assert [("a", Num(1))][..0] == [];
    assert NatToString(1) == "1";
  }

  // ---------------------------------------------------------------------------
  // validateTimespan

  /** The alternatives of the group `(min|h|d|w|m)`. */
  predicate IsTimespanUnit(u: string) {
    u == "min" || u == "h" || u == "d" || u == "w" || u == "m"
  }

  /** The language of `^\d+(min|h|d|w|m)$`: one or more ASCII digits, then one unit, then the end. */
  ghost predicate MatchesTimespanPattern(s: string) {
    exists k :: 1 <= k <= |s| && AllDigits(s[..k]) && IsTimespanUnit(s[k..])
  }

  /** `validateTimespan(s)`: the maximal run of leading digits must be followed by exactly a unit. */
  function ValidateTimespan(s: string): (valid: bool)
    ensures valid <==> MatchesTimespanPattern(s)
  {
    var k := LeadingRadixDigits(s, 10);
    LeadingRadixDigitsMaximal(s, 10);
    if 1 <= k <= |s| && IsTimespanUnit(s[k..]) then
      assert AllDigits(s[..k]) by {
        forall i | 0 <= i < k ensures IsDigit(s[..k][i]) {
          assert s[..k][i] == s[i];
        }
        AllDigitsByIndex(s[..k]);
      }
      true
    else
      assert !MatchesTimespanPattern(s) by {
        if MatchesTimespanPattern(s) {
          var j :| 1 <= j <= |s| && AllDigits(s[..j]) && IsTimespanUnit(s[j..]);
          SplitIsUnique(s, j);
        }
      }
      false
  }

  /** A digits/unit split can only be at the end of the leading digit run. */
  lemma SplitIsUnique(s: string, j: nat)
    requires 1 <= j <= |s| && AllDigits(s[..j]) && IsTimespanUnit(s[j..])
    ensures LeadingRadixDigits(s, 10) == j
  {
    var k := LeadingRadixDigits(s, 10);
    LeadingRadixDigitsMaximal(s, 10);
    assert s[j..][0] == s[j];
    assert !IsDigit(s[j]);
    forall i | 0 <= i < j ensures IsRadixDigit(s[i], 10) {
      AllDigitsAt(s[..j], i);
      assert s[..j][i] == s[i];
    }
  }

  lemma TimespansAccepted()
    ensures ValidateTimespan("3d") && ValidateTimespan("0h") && ValidateTimespan("15min")
    ensures ValidateTimespan("2m") && ValidateTimespan("1w") && ValidateTimespan("1d")
  {
  }

  /** Inputs without a unit, without a leading number, or with anything between or after. */
  lemma TimespansRejected()
    ensures !ValidateTimespan("3 days") && !ValidateTimespan("d3") && !ValidateTimespan("3")
  {
  }

  lemma EmptyAndBareTimespansRejected()
    ensures !ValidateTimespan("") && !ValidateTimespan("min") && !ValidateTimespan("3dd")
  {
  }
}

/** The date helpers of the same source file: GDELT's compact YYYYMMDDHHMMSS timestamps. */
module GdeltDates {
  import opened Wrappers
  import opened Seqs
  import opened Strings

  /**
   * A JavaScript Date as the model sees it: invalid (a NaN time value) or its six local
   * calendar fields, with the month zero-based as `getMonth` returns it.
   */
  datatype Date = InvalidDate | DateTime(year: int, month: int, day: int, hour: int, minute: int, second: int)

  /** `s.substring(start, end)` for start <= end: both ends are clamped to the length. */
  function Substring(s: string, start: nat, end: nat): string
    requires start <= end
  {
    s[Min(start, |s|)..Min(end, |s|)]
  }

  /**
   * `parseGdeltDate(s)`: year from offsets 0-3, month 4-5 (made zero-based), day 6-7; hour,
   * minute and second from 8-9, 10-11, 12-13 with `|| 0`, so a missing or NaN field is 0.
   * A NaN year, month or day makes an invalid Date.
   */
  function ParseGdeltDate(s: string): (d: Date)
    ensures d.InvalidDate? <==> Field(s, 0, 4).None? || Field(s, 4, 6).None? || Field(s, 6, 8).None?
    ensures d.DateTime? ==>
      d.year == Field(s, 0, 4).value && d.month == Field(s, 4, 6).value - 1 && d.day == Field(s, 6, 8).value
    ensures d.DateTime? ==>
      (Field(s, 8, 10).None? ==> d.hour == 0) && (Field(s, 8, 10).Some? ==> d.hour == Field(s, 8, 10).value) &&
      (Field(s, 10, 12).None? ==> d.minute == 0) && (Field(s, 10, 12).Some? ==> d.minute == Field(s, 10, 12).value) &&
      (Field(s, 12, 14).None? ==> d.second == 0) && (Field(s, 12, 14).Some? ==> d.second == Field(s, 12, 14).value)
  {
    var year := Field(s, 0, 4);
    var month := Field(s, 4, 6);
    var day := Field(s, 6, 8);
    if year.None? || month.None? || day.None? then InvalidDate
    else DateTime(year.value, month.value - 1, day.value,
                  Field(s, 8, 10).GetOr(0), Field(s, 10, 12).GetOr(0), Field(s, 12, 14).GetOr(0))
  }

  /** `parseInt(s.substring(start, end))`. */
  function Field(s: string, start: nat, end: nat): Option<int>
    requires start <= end
  {
    ParseInt(Substring(s, start, end))
  }

  predicate IsLeapYear(y: int) {
    y % 4 == 0 && (y % 100 != 0 || y % 400 == 0)
  }

  /** Days of the zero-based month m in the proleptic Gregorian calendar. */
  function DaysInMonth(y: int, m: int): int
    requires 0 <= m < 12
  {
    if m == 1 then (if IsLeapYear(y) then 29 else 28)
    else if m == 3 || m == 5 || m == 8 || m == 10 then 30
    else 31
  }

  /** The fields name a real date and time of day (what a valid Date's getters always return). */
  predicate IsCalendarDate(d: Date) {
    d.DateTime? &&
    0 <= d.month < 12 && 1 <= d.day <= DaysInMonth(d.year, d.month) &&
    0 <= d.hour < 24 && 0 <= d.minute < 60 && 0 <= d.second < 60
  }

  /** `String(n).padStart(2, '0')`. */
  function Pad2(n: int): (p: string)
    ensures |p| >= 2
  {
    PadStart(IntToString(n), 2, '0')
  }

  /**
   * `formatGdeltDate(d)`: the year unpadded, then month (one-based), day, hour, minute and
   * second each padded to two digits. Every getter of an invalid Date gives NaN.
   */
  function FormatGdeltDate(d: Date): (r: string)
    requires d.InvalidDate? || IsCalendarDate(d)
    ensures d.InvalidDate? ==> r == "NaNNaNNaNNaNNaNNaN"
    ensures d.DateTime? ==> StartsWith(r, IntToString(d.year)) && |r| >= |IntToString(d.year)| + 10
  {
    if d.InvalidDate? then "NaNNaNNaNNaNNaNNaN"
    else
      var y := IntToString(d.year);
      var mo, da, ho, mi, se := Pad2(d.month + 1), Pad2(d.day), Pad2(d.hour), Pad2(d.minute), Pad2(d.second);
      PiecesAfterYear(y, mo, da, ho, mi, se);
      y + mo + da + ho + mi + se
  }

  /** Five pieces of at least two characters after the year: the year is a prefix, ten more characters follow. */
  lemma PiecesAfterYear(y: string, mo: string, da: string, ho: string, mi: string, se: string)
    requires |mo| >= 2 && |da| >= 2 && |ho| >= 2 && |mi| >= 2 && |se| >= 2
    ensures var r := y + mo + da + ho + mi + se; StartsWith(r, y) && |r| >= |y| + 10
  {
    var r := y + mo + da + ho + mi + se;
    assert r[..|y|] == y;
  }
}

/** What parseGdeltDate and formatGdeltDate promise of each other on GDELT's timestamps. */
module GdeltDateFacts {
  import opened Wrappers
  import opened Strings
  import opened GdeltDates

  /** A field lying inside a digit string is read as its decimal value. */
  lemma DigitField(s: string, a: nat, b: nat)
    requires a < b <= |s| && AllDigits(s)
    ensures Field(s, a, b) == Some(DecimalValue(s[a..b]))
  {
    assert Substring(s, a, b) == s[a..b];
    DigitSlice(s, a, b);
    ParseIntOfDigits(s[a..b]);
  }

  /** A field at or past the end of the string is NaN. */
  lemma FieldPastEnd(s: string, a: nat, b: nat)
    requires |s| <= a <= b
    ensures Field(s, a, b).None?
  {
    assert Substring(s, a, b) == "";
  }

  /** parseGdeltDate builds its date from the six fields it reads, with the month made zero-based. */
  lemma CombineFields(s: string, year: int, month: int, day: int, hour: int, minute: int, second: int)
    requires Field(s, 0, 4) == Some(year) && Field(s, 4, 6) == Some(month) && Field(s, 6, 8) == Some(day)
    requires Field(s, 8, 10).GetOr(0) == hour && Field(s, 10, 12).GetOr(0) == minute
    requires Field(s, 12, 14).GetOr(0) == second
    ensures ParseGdeltDate(s) == DateTime(year, month - 1, day, hour, minute, second)
  {
  }

  /**
   * An hour, minute or second field that is missing or does not start like a number (a letter,
   * say, as in "20240101ab") is NaN, and parseGdeltDate's `|| 0` makes it 0.
   */
  lemma TimeFieldsDefaultToZero(s: string)
    requires ParseGdeltDate(s).DateTime?
    ensures |s| <= 8 || NotNumberStart(s[8]) ==> ParseGdeltDate(s).hour == 0
    ensures |s| <= 10 || NotNumberStart(s[10]) ==> ParseGdeltDate(s).minute == 0
    ensures |s| <= 12 || NotNumberStart(s[12]) ==> ParseGdeltDate(s).second == 0
  {
    TimeFieldIsNaN(s, 8);
    TimeFieldIsNaN(s, 10);
    TimeFieldIsNaN(s, 12);
  }

  predicate NotNumberStart(c: char) {
    !IsJsWhitespace(c) && c != '-' && c != '+' && !IsDigit(c)
  }

  lemma TimeFieldIsNaN(s: string, a: nat)
    ensures |s| <= a || NotNumberStart(s[a]) ==> Field(s, a, a + 2).None?
  {
    if |s| <= a {
      FieldPastEnd(s, a, a + 2);
    } else if NotNumberStart(s[a]) {
      var t := Substring(s, a, a + 2);
      assert t[0] == s[a];
      NonNumericIsNaN(t);
    }
  }

  /** On 14 digits, parseGdeltDate reads each field from its fixed offsets. */
  lemma ParseReadsFixedOffsets(s: string)
    requires |s| == 14 && AllDigits(s)
    ensures ParseGdeltDate(s) == DateTime(DecimalValue(s[0..4]), DecimalValue(s[4..6]) - 1, DecimalValue(s[6..8]),
                                          DecimalValue(s[8..10]), DecimalValue(s[10..12]), DecimalValue(s[12..14]))
  {
    DigitField(s, 0, 4);
    DigitField(s, 4, 6);
    DigitField(s, 6, 8);
    DigitField(s, 8, 10);
    DigitField(s, 10, 12);
    DigitField(s, 12, 14);
    CombineFields(s, DecimalValue(s[0..4]), DecimalValue(s[4..6]), DecimalValue(s[6..8]),
                  DecimalValue(s[8..10]), DecimalValue(s[10..12]), DecimalValue(s[12..14]));
  }

  /** An 8-digit YYYYMMDD string is midnight of that day. */
  lemma DateOnlyIsMidnight(s: string)
    requires |s| == 8 && AllDigits(s)
    ensures ParseGdeltDate(s) == DateTime(DecimalValue(s[0..4]), DecimalValue(s[4..6]) - 1, DecimalValue(s[6..8]), 0, 0, 0)
  {
    DigitField(s, 0, 4);
    DigitField(s, 4, 6);
    DigitField(s, 6, 8);
    FieldPastEnd(s, 8, 10);
    FieldPastEnd(s, 10, 12);
    FieldPastEnd(s, 12, 14);
    CombineFields(s, DecimalValue(s[0..4]), DecimalValue(s[4..6]), DecimalValue(s[6..8]), 0, 0, 0);
  }

  /**
   * The six digit groups of a GDELT timestamp YYYYMMDDHHMMSS: a four-digit year without a
   * leading zero and five two-digit groups that together name a real date and time of day.
   */
  ghost predicate IsTimestampParts(y: string, mo: string, da: string, ho: string, mi: string, se: string) {
    |y| == 4 && |mo| == 2 && |da| == 2 && |ho| == 2 && |mi| == 2 && |se| == 2 &&
    AllDigits(y) && AllDigits(mo) && AllDigits(da) && AllDigits(ho) && AllDigits(mi) && AllDigits(se) &&
    y[0] != '0' &&
    IsCalendarDate(DateTime(DecimalValue(y), DecimalValue(mo) - 1, DecimalValue(da),
                            DecimalValue(ho), DecimalValue(mi), DecimalValue(se)))
  }

  /** formatGdeltDate lays its six pieces end to end. */
  lemma FormatOfParts(d: Date, y: string, mo: string, da: string, ho: string, mi: string, se: string)
    requires IsCalendarDate(d)
    requires IntToString(d.year) == y && Pad2(d.month + 1) == mo && Pad2(d.day) == da
    requires Pad2(d.hour) == ho && Pad2(d.minute) == mi && Pad2(d.second) == se
    ensures FormatGdeltDate(d) == y + mo + da + ho + mi + se
  {
  }

  /** The six groups laid end to end are the slices parseGdeltDate reads. */
  lemma SlicesOfParts(y: string, mo: string, da: string, ho: string, mi: string, se: string)
    requires |y| == 4 && |mo| == 2 && |da| == 2 && |ho| == 2 && |mi| == 2 && |se| == 2
    ensures var s := y + mo + da + ho + mi + se;
      |s| == 14 && s[0..4] == y && s[4..6] == mo && s[6..8] == da &&
      s[8..10] == ho && s[10..12] == mi && s[12..14] == se
  {
    var s := y + mo + da + ho + mi + se;
    assert s[0..4] == y && s[4..6] == mo && s[6..8] == da;
    assert s[8..10] == ho && s[10..12] == mi && s[12..14] == se;
  }

  /** The six groups laid end to end are 14 digits. */
  lemma DigitsOfParts(y: string, mo: string, da: string, ho: string, mi: string, se: string)
    requires AllDigits(y) && AllDigits(mo) && AllDigits(da) && AllDigits(ho) && AllDigits(mi) && AllDigits(se)
    ensures AllDigits(y + mo + da + ho + mi + se)
  {
    DigitsConcat(y, mo);
    DigitsConcat(y + mo, da);
    DigitsConcat(y + mo + da, ho);
    DigitsConcat(y + mo + da + ho, mi);
    DigitsConcat(y + mo + da + ho + mi, se);
  }

  /** Six digit groups of widths 4, 2, 2, 2, 2, 2 laid end to end are read back one by one. */
  lemma ParseOfParts(y: string, mo: string, da: string, ho: string, mi: string, se: string)
    requires |y| == 4 && |mo| == 2 && |da| == 2 && |ho| == 2 && |mi| == 2 && |se| == 2
    requires AllDigits(y) && AllDigits(mo) && AllDigits(da) && AllDigits(ho) && AllDigits(mi) && AllDigits(se)
    ensures var s := y + mo + da + ho + mi + se;
      |s| == 14 && AllDigits(s) &&
      ParseGdeltDate(s) == DateTime(DecimalValue(y), DecimalValue(mo) - 1, DecimalValue(da),
                                    DecimalValue(ho), DecimalValue(mi), DecimalValue(se))
  {
    SlicesOfParts(y, mo, da, ho, mi, se);
    DigitsOfParts(y, mo, da, ho, mi, se);
    ParseReadsFixedOffsets(y + mo + da + ho + mi + se);
  }

  /** Formatting the date the six groups name writes the groups back. */
  lemma FormatOfTimestampParts(y: string, mo: string, da: string, ho: string, mi: string, se: string)
    requires IsTimestampParts(y, mo, da, ho, mi, se)
    ensures var d := DateTime(DecimalValue(y), DecimalValue(mo) - 1, DecimalValue(da),
                              DecimalValue(ho), DecimalValue(mi), DecimalValue(se));
      IsCalendarDate(d) && FormatGdeltDate(d) == y + mo + da + ho + mi + se
  {
    NatToStringOfDigits(y);
    TwoDigitsRoundTrip(mo);
    TwoDigitsRoundTrip(da);
    TwoDigitsRoundTrip(ho);
    TwoDigitsRoundTrip(mi);
    TwoDigitsRoundTrip(se);
    FormatOfParts(DateTime(DecimalValue(y), DecimalValue(mo) - 1, DecimalValue(da),
                           DecimalValue(ho), DecimalValue(mi), DecimalValue(se)), y, mo, da, ho, mi, se);
  }

  /** Formatting a parsed GDELT timestamp gives back the same string. */
  lemma FormatParseRoundTrip(y: string, mo: string, da: string, ho: string, mi: string, se: string)
    requires IsTimestampParts(y, mo, da, ho, mi, se)
    ensures var s := y + mo + da + ho + mi + se; var d := ParseGdeltDate(s);
      IsCalendarDate(d) && FormatGdeltDate(d) == s
  {
    ParseOfParts(y, mo, da, ho, mi, se);
    FormatOfTimestampParts(y, mo, da, ho, mi, se);
  }

  /**
   * The same round trip on the string itself: 14 digits without a leading zero whose fields
   * name a real date and time of day are formatted back unchanged.
   */
  lemma FormatParseRoundTripOfString(s: string)
    requires |s| == 14 && AllDigits(s) && s[0] != '0'
    requires IsCalendarDate(DateTime(DecimalValue(s[0..4]), DecimalValue(s[4..6]) - 1, DecimalValue(s[6..8]),
                                     DecimalValue(s[8..10]), DecimalValue(s[10..12]), DecimalValue(s[12..14])))
    ensures IsCalendarDate(ParseGdeltDate(s)) && FormatGdeltDate(ParseGdeltDate(s)) == s
  {
    DigitSlice(s, 0, 4);
    DigitSlice(s, 4, 6);
    DigitSlice(s, 6, 8);
    DigitSlice(s, 8, 10);
    DigitSlice(s, 10, 12);
    DigitSlice(s, 12, 14);
    assert s[0..4][0] == s[0];
    assert s == s[0..4] + s[4..6] + s[6..8] + s[8..10] + s[10..12] + s[12..14];
    FormatParseRoundTrip(s[0..4], s[4..6], s[6..8], s[8..10], s[10..12], s[12..14]);
  }

  lemma FourDigitYear(y: nat)
    requires 1000 <= y <= 9999
    ensures |NatToString(y)| == 4 && NatToString(y)[0] != '0'
  {
    assert NatToString(y) == NatToString(y / 10) + [Digit(y % 10)];
    assert NatToString(y / 10) == NatToString(y / 10 / 10) + [Digit(y / 10 % 10)];
    assert NatToString(y / 10 / 10) == NatToString(y / 10 / 10 / 10) + [Digit(y / 10 / 10 % 10)];
    assert NatToString(y / 10 / 10 / 10) == [Digit(y / 10 / 10 / 10)];
  }

  /** `String(n).padStart(2, '0')` of a number below 100 is two digits worth n. */
  lemma Pad2Digits(n: int)
    requires 0 <= n < 100
    ensures |Pad2(n)| == 2 && AllDigits(Pad2(n)) && DecimalValue(Pad2(n)) == n
  {
    PadTwoDigits(n);
  }

  /** formatGdeltDate of a real date of a four-digit year is six digit groups worth its fields. */
  lemma FormatGivesDigitGroups(d: Date)
    requires IsCalendarDate(d) && 1000 <= d.year <= 9999
    ensures var y, mo, da, ho, mi, se := IntToString(d.year), Pad2(d.month + 1), Pad2(d.day),
                                         Pad2(d.hour), Pad2(d.minute), Pad2(d.second);
      FormatGdeltDate(d) == y + mo + da + ho + mi + se &&
      |y| == 4 && AllDigits(y) && DecimalValue(y) == d.year &&
      |mo| == 2 && AllDigits(mo) && DecimalValue(mo) == d.month + 1 &&
      |da| == 2 && AllDigits(da) && DecimalValue(da) == d.day &&
      |ho| == 2 && AllDigits(ho) && DecimalValue(ho) == d.hour &&
      |mi| == 2 && AllDigits(mi) && DecimalValue(mi) == d.minute &&
      |se| == 2 && AllDigits(se) && DecimalValue(se) == d.second
  {
    FourDigitYear(d.year);
    Pad2Digits(d.month + 1);
    Pad2Digits(d.day);
    Pad2Digits(d.hour);
    Pad2Digits(d.minute);
    Pad2Digits(d.second);
    FormatOfParts(d, IntToString(d.year), Pad2(d.month + 1), Pad2(d.day), Pad2(d.hour), Pad2(d.minute), Pad2(d.second));
  }

  /** Parsing a formatted date of a four-digit year gives back the same fields; the string is 14 digits. */
  lemma ParseFormatRoundTrip(d: Date)
    requires IsCalendarDate(d) && 1000 <= d.year <= 9999
    ensures var s := FormatGdeltDate(d); |s| == 14 && AllDigits(s) && ParseGdeltDate(s) == d
  {
    FormatGivesDigitGroups(d);
    ParseOfParts(IntToString(d.year), Pad2(d.month + 1), Pad2(d.day), Pad2(d.hour), Pad2(d.minute), Pad2(d.second));
  }
}
