/** The three weather-server tools — `get_alerts`, `get_forecast` and
    `get_products` — from the moment their HTTP requests return. A fetcher
    (`make_nws_request`, `product_request`) is a parameter `fetch` from URL to
    its result: `None` for every failure, `Some(json)` for a decoded body. */
module Weather {
  import opened Python

  const NwsApiBase := "https://api.weather.gov"
  const ProductsUrl := "https://api.restful-api.dev/objects"

  /** What the tools put between two formatted entries. */
  const Separator := "\n---\n"

  // ---------------------------------------------------------------- alerts

  /** The five fields an alert shows, after defaulting. */
  datatype AlertView = AlertView(
    event: string, area: string, severity: string, description: string, instruction: string)

  /** An entry that `props.get(k, ...)` reads and an f-string substitutes. */
  predicate ScalarAt(props: map<string, Json>, k: string) {
    k in props ==> IsScalar(props[k])
  }

  predicate AlertPropsOk(props: map<string, Json>) {
    && ScalarAt(props, "event")
    && ScalarAt(props, "areaDesc")
    && ScalarAt(props, "severity")
    && ScalarAt(props, "description")
    && ScalarAt(props, "instruction")
  }

  /** A feature `format_alert` accepts: a dict whose `properties` is a dict. */
  predicate IsAlertFeature(feature: Json) {
    && HasKey(feature, "properties")
    && feature.fields["properties"].JObject?
    && AlertPropsOk(feature.fields["properties"].fields)
  }

  /** The defaulting policy of `format_alert`: a present field is shown as
      `str()` of its value (so a JSON null shows as `None`), an absent one as
      its fixed default. */
  function AlertViewOf(props: map<string, Json>): (v: AlertView)
    requires AlertPropsOk(props)
    ensures v.event == if "event" in props then Str(props["event"]) else "Unknown"
    ensures v.area == if "areaDesc" in props then Str(props["areaDesc"]) else "Unknown"
    ensures v.severity == if "severity" in props then Str(props["severity"]) else "Unknown"
    ensures v.description == if "description" in props then Str(props["description"]) else "No description available"
    ensures v.instruction == if "instruction" in props then Str(props["instruction"]) else "No specific instructions provided"
  {
    AlertView(
      GetOr(props, "event", "Unknown"),
      GetOr(props, "areaDesc", "Unknown"),
      GetOr(props, "severity", "Unknown"),
      GetOr(props, "description", "No description available"),
      GetOr(props, "instruction", "No specific instructions provided"))
  }

  /** The alert template: it opens with a newline. */
  function RenderAlert(v: AlertView): (r: string)
    ensures |r| > 0 && r[0] == '\n'
  {
    "\n" + "Event: " + v.event +
    "\n" + "Area: " + v.area +
    "\n" + "Severity: " + v.severity +
    "\n" + "Description: " + v.description +
    "\n" + "Instructions: " + v.instruction + "\n"
  }

  /** `format_alert(feature)`. */
  function FormatAlert(feature: Json): (r: string)
    requires IsAlertFeature(feature)
    ensures |r| > 0 && r[0] == '\n'
  {
    RenderAlert(AlertViewOf(feature.fields["properties"].fields))
  }

  // ------------------------------------------------ reading formatted text back

  // The tools only ever build text; `Split` serves the readers `ParseAlert` and
  // `ParsePeriod`, which show that the templates lose nothing.

  /** `s.split(c)` for a one-character separator `c`. */
  function Split(s: string, c: char): (r: seq<string>)
    ensures |r| >= 1
    decreases |s|
  {
    if |s| == 0 then [""]
    else
      var rest := Split(s[1..], c);
      if s[0] == c then [""] + rest
      else [[s[0]] + rest[0]] + rest[1..]
  }

  lemma {:induction false} SplitNoSeparator(a: string, c: char)
    requires c !in a
    ensures Split(a, c) == [a]
  {
    if |a| > 0 {
      SplitNoSeparator(a[1..], c);
      assert [a[0]] + a[1..] == a;
    }
  }

  lemma {:induction false} SplitAtFirst(a: string, c: char, rest: string)
    requires c !in a
    ensures Split(a + [c] + rest, c) == [a] + Split(rest, c)
  {
    var s := a + [c] + rest;
    if |a| == 0 {
      assert s[1..] == rest;
    } else {
      assert s[1..] == a[1..] + [c] + rest;
      SplitAtFirst(a[1..], c, rest);
      assert [a[0]] + a[1..] == a;
    }
  }

  /** A newline-free line followed by a newline splits off as one part. */
  lemma SplitLine(l: string, t: string)
    requires '\n' !in l
    ensures Split(l + "\n" + t, '\n') == [l] + Split(t, '\n')
  {
    assert l + "\n" + t == l + ['\n'] + t;
    SplitAtFirst(l, '\n', t);
  }

  /** Four newline-free lines between a leading and a trailing newline split
      back into six lines. */
  lemma SplitFourLines(l1: string, l2: string, l3: string, l4: string)
    requires '\n' !in l1 && '\n' !in l2 && '\n' !in l3 && '\n' !in l4
    ensures Split("\n" + (l1 + "\n" + (l2 + "\n" + (l3 + "\n" + (l4 + "\n")))), '\n')
            == ["", l1, l2, l3, l4, ""]
  {
    var t4 := l4 + "\n" + "";
    var t3 := l3 + "\n" + t4;
    var t2 := l2 + "\n" + t3;
    var t1 := l1 + "\n" + t2;
    SplitNoSeparator("", '\n');
    SplitLine(l4, "");
    SplitLine(l3, t4);
    SplitLine(l2, t3);
    SplitLine(l1, t2);
    SplitLine("", t1);
    assert "\n" + (l1 + "\n" + (l2 + "\n" + (l3 + "\n" + (l4 + "\n")))) == "" + "\n" + t1;
  }

  /** Five newline-free lines between a leading and a trailing newline split
      back into seven lines. */
  lemma SplitFiveLines(l1: string, l2: string, l3: string, l4: string, l5: string)
    requires '\n' !in l1 && '\n' !in l2 && '\n' !in l3 && '\n' !in l4 && '\n' !in l5
    ensures Split("\n" + (l1 + "\n" + (l2 + "\n" + (l3 + "\n" + (l4 + "\n" + (l5 + "\n"))))), '\n')
            == ["", l1, l2, l3, l4, l5, ""]
  {
    var t5 := l5 + "\n" + "";
    var t4 := l4 + "\n" + t5;
    var t3 := l3 + "\n" + t4;
    var t2 := l2 + "\n" + t3;
    var t1 := l1 + "\n" + t2;
    SplitNoSeparator("", '\n');
    SplitLine(l5, "");
    SplitLine(l4, t5);
    SplitLine(l3, t4);
    SplitLine(l2, t3);
    SplitLine(l1, t2);
    SplitLine("", t1);
    assert "\n" + (l1 + "\n" + (l2 + "\n" + (l3 + "\n" + (l4 + "\n" + (l5 + "\n"))))) == "" + "\n" + t1;
  }

  /** Splitting a rendered alert at newlines gives its seven lines, the first
      and the last blank, when no field holds a newline. */
  lemma SplitRenderAlert(v: AlertView)
    requires SingleLine(v)
    ensures Split(RenderAlert(v), '\n') ==
      ["", "Event: " + v.event, "Area: " + v.area, "Severity: " + v.severity,
       "Description: " + v.description, "Instructions: " + v.instruction, ""]
  {
    var l1, l2, l3 := "Event: " + v.event, "Area: " + v.area, "Severity: " + v.severity;
    var l4, l5 := "Description: " + v.description, "Instructions: " + v.instruction;
    assert RenderAlert(v) == "\n" + (l1 + "\n" + (l2 + "\n" + (l3 + "\n" + (l4 + "\n" + (l5 + "\n")))));
    SplitFiveLines(l1, l2, l3, l4, l5);
  }

  /** Reads the five fields back out of a formatted alert. */
  function ParseAlert(text: string): Option<AlertView> {
    var ls := Split(text, '\n');
    if |ls| == 7 && ls[0] == "" && ls[6] == ""
       && "Event: " <= ls[1] && "Area: " <= ls[2] && "Severity: " <= ls[3]
       && "Description: " <= ls[4] && "Instructions: " <= ls[5]
    then Some(AlertView(ls[1][7..], ls[2][6..], ls[3][10..], ls[4][13..], ls[5][14..]))
    else None
  }

  predicate SingleLine(v: AlertView) {
    && '\n' !in v.event && '\n' !in v.area && '\n' !in v.severity
    && '\n' !in v.description && '\n' !in v.instruction
  }

  /** A formatted alert whose fields fit on one line each gives its fields back:
      the template loses nothing and labels every field. */
  lemma ParseFormatAlert(feature: Json)
    requires IsAlertFeature(feature)
    requires SingleLine(AlertViewOf(feature.fields["properties"].fields))
    ensures ParseAlert(FormatAlert(feature)) == Some(AlertViewOf(feature.fields["properties"].fields))
  {
    SplitRenderAlert(AlertViewOf(feature.fields["properties"].fields));
  }

  /** An alert with none of the five fields shows the defaults. */
  lemma FormatAlertDefaults(feature: Json)
    requires IsAlertFeature(feature)
    requires var props := feature.fields["properties"].fields;
             && "event" !in props && "areaDesc" !in props && "severity" !in props
             && "description" !in props && "instruction" !in props
    ensures FormatAlert(feature) ==
      "\n" + "Event: " + "Unknown" +
      "\n" + "Area: " + "Unknown" +
      "\n" + "Severity: " + "Unknown" +
      "\n" + "Description: " + "No description available" +
      "\n" + "Instructions: " + "No specific instructions provided" + "\n"
  {
    var v := AlertView("Unknown", "Unknown", "Unknown", "No description available", "No specific instructions provided");
    assert AlertViewOf(feature.fields["properties"].fields) == v;
  }

  const AlertsUnavailable := "Unable to fetch alerts or no alerts found."
  const NoActiveAlerts := "No active alerts for this state."

  /** The alerts resource of a state: the state code ends the URL unchanged. */
  function AlertsUrl(state: string): (r: string)
    ensures NwsApiBase + "/alerts/active/area/" <= r
    ensures r[|NwsApiBase + "/alerts/active/area/"|..] == state
  {
    NwsApiBase + "/alerts/active/area/" + state
  }

  /** The state code goes into the request unchanged: different codes ask for
      different resources. */
  lemma AlertsUrlInjective(a: string, b: string)
    requires AlertsUrl(a) == AlertsUrl(b)
    ensures a == b
  {
    var n := |NwsApiBase + "/alerts/active/area/"|;
    assert a == AlertsUrl(a)[n..];
    assert b == AlertsUrl(b)[n..];
  }

  predicate IsFeatureList(j: Json) {
    j.JArray? && forall i :: 0 <= i < |j.items| ==> IsAlertFeature(j.items[i])
  }

  /** A response `get_alerts` handles without raising: absent, falsy, or a dict
      whose `features`, when truthy, is a list of alert features. */
  predicate AlertsResponseOk(data: Option<Json>) {
    || data.None?
    || !Truthy(data.value)
    || (data.value.JObject?
        && ("features" in data.value.fields && Truthy(data.value.fields["features"])
            ==> IsFeatureList(data.value.fields["features"])))
  }

  /** `[format_alert(feature) for feature in features]`. */
  function FormatAlerts(features: seq<Json>): (r: seq<string>)
    requires forall i :: 0 <= i < |features| ==> IsAlertFeature(features[i])
    ensures |r| == |features|
    ensures forall i :: 0 <= i < |r| ==> r[i] == FormatAlert(features[i])
  {
    if features == [] then [] else [FormatAlert(features[0])] + FormatAlerts(features[1..])
  }

  /** The alerts a successful response carries. */
  predicate HasActiveAlerts(data: Option<Json>) {
    data.Some? && Truthy(data.value) && HasKey(data.value, "features")
    && Truthy(data.value.fields["features"])
  }

  /** `get_alerts` after its request has returned `data`. */
  function AlertsReply(data: Option<Json>): (r: string)
    requires AlertsResponseOk(data)
    ensures r == AlertsUnavailable || r == NoActiveAlerts || (|r| > 0 && r[0] == '\n')
  {
    if data.None? || !Truthy(data.value) || !HasKey(data.value, "features") then AlertsUnavailable
    else if !Truthy(data.value.fields["features"]) then NoActiveAlerts
    else
      var parts := FormatAlerts(data.value.fields["features"].items);
      JoinStartsWithNewline(parts);
      Join(Separator, parts)
  }

  /** A join of parts that each start with a newline is empty or starts with one. */
  lemma JoinStartsWithNewline(parts: seq<string>)
    requires forall i :: 0 <= i < |parts| ==> |parts[i]| > 0 && parts[i][0] == '\n'
    ensures Join(Separator, parts) == "" || Join(Separator, parts)[0] == '\n'
  {
    if parts != [] {
      JoinPiece(Separator, parts, 0);
      assert parts[..0] == [];
    }
  }

  /** The generic failure message comes back exactly when the request failed,
      the body is falsy or it has no `features`. */
  lemma AlertsUnavailableIff(data: Option<Json>)
    requires AlertsResponseOk(data)
    ensures AlertsReply(data) == AlertsUnavailable
            <==> data.None? || !Truthy(data.value) || !HasKey(data.value, "features")
  {
    if HasActiveAlerts(data) {
      JoinStartsWithNewline(FormatAlerts(data.value.fields["features"].items));
    }
  }

  /** "No active alerts" comes back exactly when `features` is present but falsy. */
  lemma NoActiveAlertsIff(data: Option<Json>)
    requires AlertsResponseOk(data)
    ensures AlertsReply(data) == NoActiveAlerts
            <==> data.Some? && Truthy(data.value) && HasKey(data.value, "features")
                 && !Truthy(data.value.fields["features"])
  {
    if HasActiveAlerts(data) {
      JoinStartsWithNewline(FormatAlerts(data.value.fields["features"].items));
    }
  }

  /** When alerts are active, the reply lays out every formatted alert in the
      order of `features`, with one separator between neighbours and none at
      either end. */
  lemma AlertsLayout(data: Option<Json>)
    requires AlertsResponseOk(data) && HasActiveAlerts(data)
    ensures |FormatAlerts(data.value.fields["features"].items)| == |data.value.fields["features"].items|
    ensures LaidOut(Separator, FormatAlerts(data.value.fields["features"].items), AlertsReply(data))
  {
    var parts := FormatAlerts(data.value.fields["features"].items);
    assert AlertsReply(data) == Join(Separator, parts);
    JoinLaidOut(Separator, parts);
  }

  /** A state with no active alerts: the provider answers `{"features": []}`. */
  lemma NoFeaturesScenario()
    ensures AlertsReply(Some(JObject(map["features" := JArray([])]))) == NoActiveAlerts
  {
  }

  /** The `get_alerts` tool: every reply is one of the two fixed messages or a
      run of formatted alerts, which start with a newline. */
  function GetAlerts(state: string, fetch: string -> Option<Json>): (r: string)
    requires AlertsResponseOk(fetch(AlertsUrl(state)))
    ensures r == AlertsUnavailable || r == NoActiveAlerts || (|r| > 0 && r[0] == '\n')
  {
    AlertsReply(fetch(AlertsUrl(state)))
  }

  // -------------------------------------------------------------- forecast

  // The text at api/weather.py:93, written as two shorter literals because the
  // verifier does not cheaply compute the length of, or index into, a long one.
  const ForecastUnavailable := "Unable to fetch " + "forecast data for this location."
  const DetailedForecastUnavailable := "Unable to fetch detailed forecast."
  const MaxPeriods := 5

  /** The points URL; the coordinates are the texts Python renders the floats as. */
  function PointsUrl(latitude: string, longitude: string): (r: string)
    ensures NwsApiBase + "/points/" <= r
    ensures r[|NwsApiBase + "/points/"|..] == latitude + "," + longitude
  {
    NwsApiBase + "/points/" + latitude + "," + longitude
  }

  /** `points_data["properties"]["forecast"]` can be evaluated. */
  predicate HasForecastLink(points: Json) {
    HasKey(points, "properties") && HasKey(points.fields["properties"], "forecast")
  }

  function ForecastLink(points: Json): Json
    requires HasForecastLink(points)
  {
    points.fields["properties"].fields["forecast"]
  }

  /** `make_nws_request(forecast_url)`: a link that is not a string makes the
      request raise inside the fetcher's `try`, which yields `None`. */
  function FetchLinked(points: Json, fetch: string -> Option<Json>): (r: Option<Json>)
    requires HasForecastLink(points)
    ensures !ForecastLink(points).JString? ==> r.None?
    ensures ForecastLink(points).JString? ==> r == fetch(ForecastLink(points).s)
  {
    var link := ForecastLink(points);
    if link.JString? then fetch(link.s) else None
  }

  /** A period whose six fields the template reads are present and scalar. */
  predicate IsPeriod(p: Json) {
    && p.JObject?
    && "name" in p.fields && IsScalar(p.fields["name"])
    && "temperature" in p.fields && IsScalar(p.fields["temperature"])
    && "temperatureUnit" in p.fields && IsScalar(p.fields["temperatureUnit"])
    && "windSpeed" in p.fields && IsScalar(p.fields["windSpeed"])
    && "windDirection" in p.fields && IsScalar(p.fields["windDirection"])
    && "detailedForecast" in p.fields && IsScalar(p.fields["detailedForecast"])
  }

  /** What a formatted period shows. Wind speed and direction share one line
      with a space between them; NWS speeds (`10 to 15 mph`) hold spaces too,
      so the two read back as one `wind` text. */
  datatype PeriodView = PeriodView(
    name: string, temperature: string, unit: string, wind: string, forecast: string)

  /** The six period fields as an f-string substitutes them. */
  function PeriodViewOf(p: Json): (v: PeriodView)
    requires IsPeriod(p)
    ensures v.name == Str(p.fields["name"])
    ensures v.temperature == Str(p.fields["temperature"]) && v.unit == Str(p.fields["temperatureUnit"])
    ensures v.wind == Str(p.fields["windSpeed"]) + " " + Str(p.fields["windDirection"])
    ensures v.forecast == Str(p.fields["detailedForecast"])
  {
    var f := p.fields;
    PeriodView(Str(f["name"]), Str(f["temperature"]), Str(f["temperatureUnit"]),
               Str(f["windSpeed"]) + " " + Str(f["windDirection"]), Str(f["detailedForecast"]))
  }

  /** The period template over the substituted texts: it opens with a newline. */
  function RenderPeriodView(v: PeriodView): (r: string)
    ensures |r| > 0 && r[0] == '\n'
  {
    "\n" + v.name + ":" +
    "\n" + "Temperature: " + v.temperature + "°" + v.unit +
    "\n" + "Wind: " + v.wind +
    "\n" + "Forecast: " + v.forecast + "\n"
  }

  /** The text one loop iteration appends: it opens with a newline. */
  function RenderPeriod(p: Json): (r: string)
    requires IsPeriod(p)
    ensures |r| > 0 && r[0] == '\n'
  {
    RenderPeriodView(PeriodViewOf(p))
  }

  /** The texts fit on one line each, and the temperature and its unit hold no
      degree sign, so the template can be read back. */
  predicate ReadableView(v: PeriodView) {
    && '\n' !in v.name && '\n' !in v.temperature && '\n' !in v.unit
    && '\n' !in v.wind && '\n' !in v.forecast
    && '°' !in v.temperature && '°' !in v.unit
  }

  /** Splitting a formatted period at newlines gives its six lines, the first
      and the last blank. */
  lemma SplitRenderPeriod(v: PeriodView)
    requires ReadableView(v)
    ensures Split(RenderPeriodView(v), '\n') ==
      ["", v.name + ":", "Temperature: " + v.temperature + "°" + v.unit,
       "Wind: " + v.wind, "Forecast: " + v.forecast, ""]
  {
    var l1, l2 := v.name + ":", "Temperature: " + v.temperature + "°" + v.unit;
    var l3, l4 := "Wind: " + v.wind, "Forecast: " + v.forecast;
    assert RenderPeriodView(v) == "\n" + (l1 + "\n" + (l2 + "\n" + (l3 + "\n" + (l4 + "\n"))));
    SplitFourLines(l1, l2, l3, l4);
  }

  /** Reads a formatted period back: its name (before the colon), temperature
      and unit (either side of the degree sign), wind and forecast text. */
  function ParsePeriod(text: string): Option<PeriodView> {
    var ls := Split(text, '\n');
    if && |ls| == 6 && ls[0] == "" && ls[5] == ""
       && |ls[1]| > 0 && ls[1][|ls[1]| - 1] == ':'
       && "Temperature: " <= ls[2] && "Wind: " <= ls[3] && "Forecast: " <= ls[4]
    then
      var tu := Split(ls[2][13..], '°');
      if |tu| == 2 then Some(PeriodView(ls[1][..|ls[1]| - 1], tu[0], tu[1], ls[3][6..], ls[4][10..]))
      else None
    else None
  }

  /** The six lines of a formatted period read back as its five texts. */
  lemma ReadPeriodLines(text: string, v: PeriodView)
    requires '°' !in v.temperature && '°' !in v.unit
    requires Split(text, '\n') ==
      ["", v.name + ":", "Temperature: " + v.temperature + "°" + v.unit,
       "Wind: " + v.wind, "Forecast: " + v.forecast, ""]
    ensures ParsePeriod(text) == Some(v)
  {
    var l1, l2 := v.name + ":", "Temperature: " + v.temperature + "°" + v.unit;
    assert l1[..|l1| - 1] == v.name;
    assert Split(l2[13..], '°') == [v.temperature, v.unit] by {
      assert l2[13..] == v.temperature + ['°'] + v.unit;
      SplitAtFirst(v.temperature, '°', v.unit);
      SplitNoSeparator(v.unit, '°');
    }
  }

  /** A formatted period gives back what it shows: the template loses nothing
      and labels every field. */
  lemma ParseRenderPeriod(p: Json)
    requires IsPeriod(p) && ReadableView(PeriodViewOf(p))
    ensures ParsePeriod(RenderPeriod(p)) == Some(PeriodViewOf(p))
  {
    var v := PeriodViewOf(p);
    SplitRenderPeriod(v);
    ReadPeriodLines(RenderPeriod(p), v);
  }

  function RenderPeriods(periods: seq<Json>): (r: seq<string>)
    requires forall i :: 0 <= i < |periods| ==> IsPeriod(periods[i])
    ensures |r| == |periods|
    ensures forall i :: 0 <= i < |r| ==> r[i] == RenderPeriod(periods[i])
  {
    if periods == [] then [] else [RenderPeriod(periods[0])] + RenderPeriods(periods[1..])
  }

  /** The periods the loop visits are well formed; later ones are never read. */
  predicate LeadingPeriodsOk(periods: seq<Json>) {
    forall i :: 0 <= i < Min(MaxPeriods, |periods|) ==> IsPeriod(periods[i])
  }

  /** `forecast_data["properties"]["periods"]` is a list whose first five entries are periods. */
  predicate HasPeriods(forecast: Json) {
    && HasKey(forecast, "properties")
    && HasKey(forecast.fields["properties"], "periods")
    && forecast.fields["properties"].fields["periods"].JArray?
    && LeadingPeriodsOk(forecast.fields["properties"].fields["periods"].items)
  }

  function Periods(forecast: Json): seq<Json>
    requires HasPeriods(forecast)
  {
    forecast.fields["properties"].fields["periods"].items
  }

  /** Inputs `get_forecast` handles without raising: the points response, when
      truthy, carries a forecast link, and the linked response, when truthy,
      carries its periods. */
  predicate ForecastInputsOk(points: Option<Json>, fetch: string -> Option<Json>) {
    || points.None?
    || !Truthy(points.value)
    || (&& HasForecastLink(points.value)
        && var data := FetchLinked(points.value, fetch);
           data.None? || !Truthy(data.value) || HasPeriods(data.value))
  }

  /** The successful reply: the first five periods, formatted and joined. No
      periods give the empty text; otherwise it begins with the first period. */
  function ForecastText(periods: seq<Json>): (r: string)
    requires LeadingPeriodsOk(periods)
    ensures periods == [] ==> r == ""
    ensures periods != [] ==> RenderPeriod(periods[0]) <= r
  {
    Join(Separator, RenderPeriods(Slice(periods, MaxPeriods)))
  }

  /** `get_forecast` once the points request has returned `points`; `fetch`
      answers the second request. */
  function ForecastReply(points: Option<Json>, fetch: string -> Option<Json>): (r: string)
    requires ForecastInputsOk(points, fetch)
    ensures r == ForecastUnavailable || r == DetailedForecastUnavailable || r == "" || r[0] == '\n'
  {
    if points.None? || !Truthy(points.value) then ForecastUnavailable
    else
      var data := FetchLinked(points.value, fetch);
      if data.None? || !Truthy(data.value) then DetailedForecastUnavailable
      else
        ForecastTextStart(Periods(data.value));
        ForecastText(Periods(data.value))
  }

  /** With both bodies truthy the reply is the formatted periods. */
  lemma ForecastReplySucceeds(points: Option<Json>, fetch: string -> Option<Json>)
    requires ForecastInputsOk(points, fetch) && points.Some? && Truthy(points.value)
    requires FetchLinked(points.value, fetch).Some? && Truthy(FetchLinked(points.value, fetch).value)
    ensures ForecastReply(points, fetch) == ForecastText(Periods(FetchLinked(points.value, fetch).value))
  {
  }

  /** The `get_forecast` tool, with its loop over the first five periods. */
  method GetForecast(latitude: string, longitude: string, fetch: string -> Option<Json>)
    returns (reply: string)
    requires ForecastInputsOk(fetch(PointsUrl(latitude, longitude)), fetch)
    ensures reply == ForecastReply(fetch(PointsUrl(latitude, longitude)), fetch)
  {
    var pointsData := fetch(PointsUrl(latitude, longitude));
    if pointsData.None? || !Truthy(pointsData.value) {
      return ForecastUnavailable;
    }
    var forecastData := FetchLinked(pointsData.value, fetch);
    if forecastData.None? || !Truthy(forecastData.value) {
      return DetailedForecastUnavailable;
    }
    var periods := Periods(forecastData.value);
    var window := Slice(periods, MaxPeriods);
    var forecasts: seq<string> := [];
    for i := 0 to |window|
      invariant |forecasts| == i
      invariant forall k :: 0 <= k < i ==> forecasts[k] == RenderPeriod(window[k])
    {
      forecasts := forecasts + [RenderPeriod(window[i])];
    }
    assert forecasts == RenderPeriods(window);
    ForecastReplySucceeds(pointsData, fetch);
    reply := Join(Separator, forecasts);
  }

  /** The first fallback comes back exactly when the points request failed or
      its body is falsy. */
  lemma ForecastUnavailableIff(points: Option<Json>, fetch: string -> Option<Json>)
    requires ForecastInputsOk(points, fetch)
    ensures ForecastReply(points, fetch) == ForecastUnavailable
            <==> points.None? || !Truthy(points.value)
  {
    if points.Some? && Truthy(points.value) {
      var data := FetchLinked(points.value, fetch);
      FallbacksDiffer();
      if data.Some? && Truthy(data.value) {
        assert ForecastReply(points, fetch) == ForecastText(Periods(data.value));
        ForecastTextStart(Periods(data.value));
      } else {
        assert ForecastReply(points, fetch) == DetailedForecastUnavailable;
      }
    }
  }

  /** The second fallback comes back exactly when the points body is truthy and
      the request to its forecast link failed or returned a falsy body. */
  lemma DetailedForecastUnavailableIff(points: Option<Json>, fetch: string -> Option<Json>)
    requires ForecastInputsOk(points, fetch)
    ensures ForecastReply(points, fetch) == DetailedForecastUnavailable
            <==> points.Some? && Truthy(points.value)
                 && (FetchLinked(points.value, fetch).None? || !Truthy(FetchLinked(points.value, fetch).value))
  {
    if points.Some? && Truthy(points.value) {
      var data := FetchLinked(points.value, fetch);
      if data.Some? && Truthy(data.value) {
        assert ForecastReply(points, fetch) == ForecastText(Periods(data.value));
        ForecastTextStart(Periods(data.value));
        FallbacksDiffer();
      }
    } else {
      FallbacksDiffer();
    }
  }

  /** The two forecast fallbacks are distinct and neither is empty or starts
      with a newline. */
  lemma FallbacksDiffer()
    ensures ForecastUnavailable != DetailedForecastUnavailable
    ensures |ForecastUnavailable| > 0 && ForecastUnavailable[0] == 'U'
    ensures |DetailedForecastUnavailable| > 0 && DetailedForecastUnavailable[0] == 'U'
  {
    assert |ForecastUnavailable| == 48 && |DetailedForecastUnavailable| == 34;
  }

  /** A successful reply is empty (no periods) or starts with a newline, so it
      never reads as a fallback message. */
  lemma ForecastTextStart(periods: seq<Json>)
    requires LeadingPeriodsOk(periods)
    ensures ForecastText(periods) == "" || ForecastText(periods)[0] == '\n'
  {
    JoinStartsWithNewline(RenderPeriods(Slice(periods, MaxPeriods)));
  }

  /** The second request goes to `properties.forecast` and nowhere else: two
      fetchers that agree on that one URL give the same reply. */
  lemma ForecastFollowsLink(points: Option<Json>, f: string -> Option<Json>, g: string -> Option<Json>)
    requires ForecastInputsOk(points, f)
    requires points.Some? && Truthy(points.value) && HasForecastLink(points.value)
    requires ForecastLink(points.value).JString? ==> f(ForecastLink(points.value).s) == g(ForecastLink(points.value).s)
    ensures ForecastInputsOk(points, g)
    ensures ForecastReply(points, f) == ForecastReply(points, g)
  {
  }

  /** The successful reply shows `min(5, |periods|)` periods, the first ones in
      provider order, one separator apart; it is empty exactly when there are no
      periods. */
  lemma ForecastLayout(periods: seq<Json>)
    requires LeadingPeriodsOk(periods)
    ensures |RenderPeriods(Slice(periods, MaxPeriods))| == Min(MaxPeriods, |periods|)
    ensures forall i :: 0 <= i < Min(MaxPeriods, |periods|) ==>
              RenderPeriods(Slice(periods, MaxPeriods))[i] == RenderPeriod(periods[i])
    ensures ForecastText(periods) == "" <==> periods == []
    ensures periods != [] ==> LaidOut(Separator, RenderPeriods(Slice(periods, MaxPeriods)), ForecastText(periods))
  {
    var parts := RenderPeriods(Slice(periods, MaxPeriods));
    if periods != [] {
      JoinLaidOut(Separator, parts);
      assert parts[0] <= ForecastText(periods);
    }
  }

  /** Periods after the fifth never change the reply. */
  lemma ForecastIgnoresLaterPeriods(periods: seq<Json>, later: seq<Json>)
    requires LeadingPeriodsOk(periods) && |periods| >= MaxPeriods
    ensures LeadingPeriodsOk(periods + later)
    ensures ForecastText(periods + later) == ForecastText(periods)
  {
    assert Slice(periods + later, MaxPeriods) == Slice(periods, MaxPeriods);
  }

  // -------------------------------------------------------------- products

  const ProductsError := "Unable to fetch products"

  /** The dict `get_products` returns: `{"error": ...}` or `{"items": ..., "count": ...}`. */
  datatype ProductsReply = Failed(error: string) | Listed(items: Json, count: int)

  /** `get_products` after its request has returned `data`. `product_request`
      yields Python `None` both when the request fails (`None` here) and when the
      body is JSON `null` (`Some(JNull)`); either gives the error dict. */
  function ProductsReplyOf(data: Option<Json>, limit: int): (r: ProductsReply)
    ensures r.Failed? <==> data.None? || data.value.JNull?
    ensures r.Failed? ==> r.error == ProductsError
    ensures data.Some? && data.value.JArray? ==>
              && r.Listed? && r.items.JArray?
              && r.count == |r.items.items| <= |data.value.items|
              && r.items.items == data.value.items[..r.count]
              && (limit >= 0 ==> r.count == Min(limit, |data.value.items|))
              && (limit < 0 ==> r.count == Max(|data.value.items| + limit, 0))
    ensures data.Some? && !data.value.JArray? && !data.value.JNull? ==> r == Listed(data.value, 1)
  {
    if data.None? || data.value.JNull? then Failed(ProductsError)
    else if data.value.JArray? then
      var kept := Slice(data.value.items, limit);
      Listed(JArray(kept), |kept|)
    else Listed(data.value, 1)
  }

  /** A negative limit does not empty the list: it drops the last `-limit` items. */
  lemma NegativeLimitDropsTail(xs: seq<Json>, limit: int)
    requires limit < 0 && -limit < |xs|
    ensures ProductsReplyOf(Some(JArray(xs)), limit) == Listed(JArray(xs[..|xs| + limit]), |xs| + limit)
    ensures ProductsReplyOf(Some(JArray(xs)), limit).count > 0
  {
  }

  /** A list comes back empty exactly when it was empty, `limit` is zero, or
      `limit` counts back to or past its start. */
  lemma EmptyListIff(xs: seq<Json>, limit: int)
    ensures ProductsReplyOf(Some(JArray(xs)), limit).count == 0
            <==> xs == [] || limit == 0 || limit <= -|xs|
  {
  }

  /** `limit=2` against a five-item list keeps the first two items. */
  lemma TwoOfFiveScenario(e0: Json, e1: Json, e2: Json, e3: Json, e4: Json)
    ensures ProductsReplyOf(Some(JArray([e0, e1, e2, e3, e4])), 2) == Listed(JArray([e0, e1]), 2)
  {
    assert [e0, e1, e2, e3, e4][..2] == [e0, e1];
  }

  /** The `get_products` tool, `limit` defaulting to 50: the request goes to the
      fixed products URL, and the error comes back exactly when that request
      yields no body or a `null` one. */
  function GetProducts(fetch: string -> Option<Json>, limit: int := 50): (r: ProductsReply)
    ensures r.Failed? <==> fetch(ProductsUrl).None? || fetch(ProductsUrl).value.JNull?
    ensures r.Listed? ==> r.count >= 0
  {
    ProductsReplyOf(fetch(ProductsUrl), limit)
  }

  /** Called without a limit, the tool keeps at most the first 50 items. */
  lemma DefaultLimitScenario(fetch: string -> Option<Json>)
    requires fetch(ProductsUrl).Some? && fetch(ProductsUrl).value.JArray?
    ensures GetProducts(fetch).count == Min(50, |fetch(ProductsUrl).value.items|)
  {
  }
}
