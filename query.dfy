/**
 * `buildLaunchQuery` (cmd/launches.go): the command-line flags of the
 * `launches` command become the JSON document posted to the SpaceX
 * launches query endpoint.
 */
module LaunchQuery {
  import opened Wrappers

  /** The object keys the query document uses; `KeyName` gives each one's JSON spelling. */
  datatype Key = Query | Options | Sort | DateUtc | Gte | Lte | LaunchSuccess | Upcoming | Limit

  function KeyName(k: Key): string {
    match k
    case Query => "query"
    case Options => "options"
    case Sort => "sort"
    case DateUtc => "date_utc"
    case Gte => "$gte"
    case Lte => "$lte"
    case LaunchSuccess => "success"
    case Upcoming => "upcoming"
    case Limit => "limit"
  }

  /** Distinct keys are spelt differently, so the document's objects are well-formed JSON objects. */
  lemma KeyNamesDistinct(a: Key, b: Key)
    requires a != b
    ensures KeyName(a) != KeyName(b)
  {
  }

  /** The JSON values the query document is made of. */
  datatype Json = JBool(b: bool) | JInt(i: int) | JString(s: string) | JObject(fields: map<Key, Json>)

  /** The flags read from the command: dates as typed (YYYY-MM-DD), the two switches and the limit. */
  datatype LaunchFlags = LaunchFlags(startDate: string, endDate: string, failed: bool, upcoming: bool, limit: int)

  const StartOfDay: string := "T00:00:00.000Z"
  const EndOfDay: string := "T23:59:59.999Z"

  /** The date window covers the start day from its first millisecond to the end day's last. */
  function DateRange(startDate: string, endDate: string): Json {
    JObject(map[Gte := JString(startDate + StartOfDay), Lte := JString(endDate + EndOfDay)])
  }

  /** The options every query carries: newest launches first. */
  function SortNewestFirst(): Json {
    JObject(map[DateUtc := JString("desc")])
  }

  /** The filter: the upcoming switch always, a date window when both dates are set, failures only when asked. */
  function Filter(f: LaunchFlags): map<Key, Json> {
    map[Upcoming := JBool(f.upcoming)]
    + (if f.startDate != "" && f.endDate != "" then map[DateUtc := DateRange(f.startDate, f.endDate)] else map[])
    + (if f.failed then map[LaunchSuccess := JBool(false)] else map[])
  }

  /** The options: the sort always, the limit only when positive. */
  function OptionsOf(f: LaunchFlags): map<Key, Json> {
    map[Sort := SortNewestFirst()] + (if f.limit > 0 then map[Limit := JInt(f.limit)] else map[])
  }

  /** The query document, stated field by field. */
  function QueryDocument(f: LaunchFlags): Json {
    JObject(map[Query := JObject(Filter(f)), Options := JObject(OptionsOf(f))])
  }

  /**
   * `buildLaunchQuery`: start from the skeleton with an empty filter and the
   * sort option, then add one entry per flag, in the order the source does.
   */
  method BuildLaunchQuery(f: LaunchFlags) returns (query: Json)
    ensures query == QueryDocument(f)
  {
    var filter: map<Key, Json> := map[];
    var options: map<Key, Json> := map[Sort := JObject(map[DateUtc := JString("desc")])];
    if f.startDate != "" && f.endDate != "" {
      var dateQuery := map[Gte := JString(f.startDate + StartOfDay), Lte := JString(f.endDate + EndOfDay)];
      filter := filter[DateUtc := JObject(dateQuery)];
    }
    if f.failed {
      filter := filter[LaunchSuccess := JBool(false)];
    }
    if f.upcoming {
      filter := filter[Upcoming := JBool(true)];
    } else {
      filter := filter[Upcoming := JBool(false)];
    }
    if f.limit > 0 {
      options := options[Limit := JInt(f.limit)];
    }
    query := JObject(map[Query := JObject(filter), Options := JObject(options)]);
    assert filter == Filter(f);
    assert options == OptionsOf(f);
  }

  /**
   * The document's shape: a filter and an options object; the filter always
   * says whether upcoming launches are wanted, has a date window exactly when
   * both dates are given and asks for failures exactly when `failed` is set;
   * the options always sort and carry a limit exactly when it is positive.
   */
  lemma QueryShape(f: LaunchFlags)
    ensures var q := QueryDocument(f);
      && q.JObject? && q.fields.Keys == {Query, Options}
      && q.fields[Query].JObject? && q.fields[Options].JObject?
      && q.fields[Query].fields[Upcoming] == JBool(f.upcoming)
      && (DateUtc in q.fields[Query].fields <==> f.startDate != "" && f.endDate != "")
      && (DateUtc in q.fields[Query].fields ==>
            q.fields[Query].fields[DateUtc] == DateRange(f.startDate, f.endDate))
      && (LaunchSuccess in q.fields[Query].fields <==> f.failed)
      && (LaunchSuccess in q.fields[Query].fields ==> q.fields[Query].fields[LaunchSuccess] == JBool(false))
      && q.fields[Query].fields.Keys <= {Upcoming, DateUtc, LaunchSuccess}
      && q.fields[Options].fields[Sort] == SortNewestFirst()
      && (Limit in q.fields[Options].fields <==> f.limit > 0)
      && (Limit in q.fields[Options].fields ==> q.fields[Options].fields[Limit] == JInt(f.limit))
      && q.fields[Options].fields.Keys <= {Sort, Limit}
  {
  }

  // ---------------------------------------------------------------- reading the flags back

  /** The flags as far as they influence the query: a half-open date window and a non-positive limit are dropped. */
  function Effective(f: LaunchFlags): LaunchFlags {
    var window := f.startDate != "" && f.endDate != "";
    LaunchFlags(
      if window then f.startDate else "",
      if window then f.endDate else "",
      f.failed, f.upcoming,
      if f.limit > 0 then f.limit else 0)
  }

  function Field(j: Json, key: Key): Option<Json> {
    if j.JObject? && key in j.fields then Some(j.fields[key]) else None
  }

  /** `s` with the given suffix removed, when it has it. */
  function StripSuffix(s: string, suffix: string): Option<string> {
    if |suffix| <= |s| && s[|s| - |suffix|..] == suffix then Some(s[..|s| - |suffix|]) else None
  }

  /** The day a bound of the date window names, given the time-of-day suffix it must carry. */
  function DayOf(window: Option<Json>, bound: Key, suffix: string): string {
    if window.Some? then
      match Field(window.value, bound)
      case Some(JString(s)) => (match StripSuffix(s, suffix) case Some(day) => day case None => "")
      case _ => ""
    else ""
  }

  /** Reads the flags back out of a query document; anything missing reads as the flag's default. */
  function FlagsOf(query: Json): LaunchFlags {
    var filter := Field(query, Query);
    var options := Field(query, Options);
    var window := if filter.Some? then Field(filter.value, DateUtc) else None;
    LaunchFlags(
      DayOf(window, Gte, StartOfDay),
      DayOf(window, Lte, EndOfDay),
      filter.Some? && Field(filter.value, LaunchSuccess) == Some(JBool(false)),
      filter.Some? && Field(filter.value, Upcoming) == Some(JBool(true)),
      if options.Some? then (match Field(options.value, Limit) case Some(JInt(n)) => n case _ => 0) else 0)
  }

  /** The time-of-day suffix appended to a date can be stripped back off. */
  lemma StripSuffixOfAppend(s: string, suffix: string)
    ensures StripSuffix(s + suffix, suffix) == Some(s)
  {
    assert (s + suffix)[|s + suffix| - |suffix|..] == suffix;
    assert (s + suffix)[..|s + suffix| - |suffix|] == s;
  }

  /** Round trip: the query document determines the effective flags, which can be read back from it. */
  lemma FlagsRoundTrip(f: LaunchFlags)
    ensures FlagsOf(QueryDocument(f)) == Effective(f)
  {
    if f.startDate != "" && f.endDate != "" {
      WindowRoundTrip(f.startDate, f.endDate);
    }
  }

  /** Both bounds of a date window read back as the days they were built from. */
  lemma WindowRoundTrip(start: string, end: string)
    ensures DayOf(Some(DateRange(start, end)), Gte, StartOfDay) == start
    ensures DayOf(Some(DateRange(start, end)), Lte, EndOfDay) == end
  {
    StripSuffixOfAppend(start, StartOfDay);
    StripSuffixOfAppend(end, EndOfDay);
  }

  /** Only the effective flags matter: the document is the same after dropping what has no influence. */
  lemma QueryDependsOnlyOnEffective(f: LaunchFlags)
    ensures QueryDocument(Effective(f)) == QueryDocument(f)
  {
  }

  /** Two flag sets give the same document exactly when their effective flags agree. */
  lemma SameQueryIffSameEffectiveFlags(f: LaunchFlags, g: LaunchFlags)
    ensures QueryDocument(f) == QueryDocument(g) <==> Effective(f) == Effective(g)
  {
    FlagsRoundTrip(f);
    FlagsRoundTrip(g);
    if Effective(f) == Effective(g) {
      QueryDependsOnlyOnEffective(f);
      QueryDependsOnlyOnEffective(g);
    }
  }

  /** With no flags set: only the upcoming switch in the filter, only the sort in the options. */
  lemma DefaultQuery()
    ensures QueryDocument(LaunchFlags("", "", false, false, 0)) ==
      JObject(map[Query := JObject(map[Upcoming := JBool(false)]), Options := JObject(map[Sort := SortNewestFirst()])])
  {
    var q := QueryDocument(LaunchFlags("", "", false, false, 0));
    assert q.fields[Query].fields == map[Upcoming := JBool(false)];
    assert q.fields[Options].fields == map[Sort := SortNewestFirst()];
  }

  /** The date window of the command's tests: all of January 2024. */
  lemma JanuaryWindow()
    ensures DateRange("2024-01-01", "2024-01-31")
      == JObject(map[Gte := JString("2024-01-01T00:00:00.000Z"), Lte := JString("2024-01-31T23:59:59.999Z")])
  {
    assert "2024-01-01" + StartOfDay == "2024-01-01T00:00:00.000Z";
    assert "2024-01-31" + EndOfDay == "2024-01-31T23:59:59.999Z";
  }

  /** With every flag set: the full document the command's tests expect. */
  lemma FullQuery()
    ensures QueryDocument(LaunchFlags("2024-01-01", "2024-01-31", true, false, 5)) ==
      JObject(map[
        Query := JObject(map[
          Upcoming := JBool(false),
          LaunchSuccess := JBool(false),
          DateUtc := JObject(map[Gte := JString("2024-01-01T00:00:00.000Z"), Lte := JString("2024-01-31T23:59:59.999Z")])]),
        Options := JObject(map[Sort := SortNewestFirst(), Limit := JInt(5)])])
  {
    JanuaryWindow();
    var q := QueryDocument(LaunchFlags("2024-01-01", "2024-01-31", true, false, 5));
    assert q.fields[Query].fields == map[
      Upcoming := JBool(false),
      LaunchSuccess := JBool(false),
      DateUtc := JObject(map[Gte := JString("2024-01-01T00:00:00.000Z"), Lte := JString("2024-01-31T23:59:59.999Z")])];
    assert q.fields[Options].fields == map[Sort := SortNewestFirst(), Limit := JInt(5)];
  }

  /** A non-positive limit and a date window missing one end leave the default document. */
  lemma IgnoredFlags()
    ensures QueryDocument(LaunchFlags("", "", false, false, -1)) == QueryDocument(LaunchFlags("", "", false, false, 0))
    ensures QueryDocument(LaunchFlags("2024-01-01", "", false, false, 0)) == QueryDocument(LaunchFlags("", "", false, false, 0))
    ensures QueryDocument(LaunchFlags("", "2024-01-31", false, false, 0)) == QueryDocument(LaunchFlags("", "", false, false, 0))
  {
  }
}
