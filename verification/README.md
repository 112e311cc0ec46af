# Weather tool server — verified model of the tool handlers

The repository is a small tool server that proxies two public REST APIs: the
US National Weather Service and a product-listing service. It exposes three
tools. `get_alerts(state)` returns the active weather alerts of a US state as
formatted text. `get_forecast(latitude, longitude)` follows the points
resource to its forecast resource and formats the next five forecast periods.
`get_products(limit)` returns the product list, cut to `limit` items, together
with a count.

This project models what each tool does with the HTTP responses once they
have returned: the defaulting and the alert template of `format_alert`, the
three-way decision of `get_alerts`, the two guarded requests and the
five-period loop of `get_forecast`, and the shape-dependent slice of
`get_products`. It proves properties of that model.

- `python.dfy`, module `Python`: the Python behaviour the handlers rely on.
  This covers decoded JSON values (`Json`), truthiness (`Truthy`), the text an
  f-string substitutes for a scalar (`Str`), `dict.get` with a default
  (`GetOr`), the slice `xs[:stop]` (`Slice`) and `sep.join(parts)` (`Join`).
  `LaidOut` is a description of a joined string that does not use `Join`:
  every part at its offset, in order, with one separator between neighbours.
  `JoinLaidOut` proves that `Join` meets it.
- `weather.dfy`, module `Weather`: the three tools. The fetchers
  `make_nws_request` and `product_request` become a parameter
  `fetch: string -> Option<Json>`. It maps a URL to `None` when the request
  fails and to `Some(body)` when it returns a decoded body. A body that is
  JSON `null` is `Some(JNull)`: the fetcher returns Python `None` for it too.
  The model lets one state which URL each request goes to.
  - `format_alert` is `FormatAlert`, built from `AlertViewOf` (the defaulting)
    and `RenderAlert` (the template). Its partner is `ParseAlert`, which reads
    the five fields back. `ParseFormatAlert` proves the round trip for fields
    without a newline.
  - `get_alerts` is `AlertsReply` (after the fetch) and `GetAlerts` (with the
    URL). Each outcome is characterised by an if-and-only-if lemma, and
    `AlertsLayout` describes the joined alerts.
  - `get_forecast` is the method `GetForecast`. Like the source, it has a loop
    that appends one formatted period at a time. It is proved equal to the
    function `ForecastReply`, and the lemmas state the properties of
    `ForecastReply`. The period template `RenderPeriod` has the reader
    `ParsePeriod` as its partner, and `ParseRenderPeriod` proves the round
    trip.
  - `get_products` is `ProductsReplyOf` (after the fetch) and `GetProducts`,
    whose `limit` defaults to 50 as in the source. Its contract gives the
    closed forms of Python's slice.

The source never splits a string. `Split` (Python's `str.split` with a
one-character separator) lives in `weather.dfy` only to serve the two
readers `ParseAlert` and `ParsePeriod`.

Preconditions such as `AlertsResponseOk`, `ForecastInputsOk` and
`IsAlertFeature` exclude two kinds of input. The first kind makes the source
raise: a missing key (`KeyError`), or a subscript or `.get` on the wrong kind
of value (`TypeError`, `AttributeError`). The second kind is handled by the
source but left out of the model, each listed under "## Left out":

- a truthy alerts body that is not a dict: a list, or a string, for which
  `"features" not in data` is a substring test;
- a `periods` value that is a string rather than a list;
- a field value that is a list or a dict, which the f-string renders by its
  `repr`.

Every other case the source handles is modelled. This includes a failed
request, a falsy body, a missing `features` key and a falsy `features`. It
also includes a forecast link that is not a string: the request then raises
inside the fetcher's `try` and yields `None`.

Two readings of the tools' intent do not match the code, and the model
follows the code:

- `get_products` documents `limit` as the maximum number of items to return,
  which suggests that `limit <= 0` returns no items. The code is
  `data[:limit]`. For a negative `limit` with `-limit < len(data)`, this keeps
  all but the last `-limit` items (`NegativeLimitDropsTail`). The list comes
  back empty exactly when `limit == 0`, when `limit <= -len(data)` or when
  the list was already empty (`EmptyListIff`).
- The fallback of `get_alerts` is not only for a failed request or a missing
  `features` key. It also comes back for any falsy body, such as `0` or `false`:
  for those, `not data` returns the fallback before `"features" not in data`
  (which would raise) is evaluated.

## Model

| member | source | states |
|---|---|---|
| `Python.Truthy` | api/weather.py:71-74 | `not x` holds exactly for `None`, `False`, a numeric zero, `""`, `[]` and `{}`, the falsy values the tests at lines 71, 74, 92 and 99 reject |
| `Python.Join` | api/weather.py:114 | `"\n---\n".join(parts)` is empty for no parts and otherwise begins with the first part; `JoinLaidOut` places every part |
| `Python.Str` | api/weather.py:52-58 | an f-string shows a JSON string as its own text and JSON null as `None` |
| `Python.GetOr` | api/weather.py:53-57 | `d.get(k, default)` yields the default when `k` is absent and the stored string when one is present |
| `Python.SliceEnd` | api/weather.py:131 | the normalised end index of `[:stop]` never exceeds the length |
| `Python.Slice` | api/weather.py:131 | `xs[:stop]` is a prefix of `xs`; its length is `min(stop, n)` for `stop >= 0` and `max(n + stop, 0)` for `stop < 0` |
| `Python.JoinLength` | api/weather.py:78 | a join of `k` parts has the parts' total length plus `k - 1` separators |
| `Python.JoinPiece` | api/weather.py:78 | part `i` of a join sits at its offset: after the earlier parts and one separator behind each of them |
| `Python.JoinSeparator` | api/weather.py:78 | exactly one separator follows every part but the last |
| `Python.PieceStartNext` | api/weather.py:78 | consecutive parts of a join start one part and one separator apart |
| `Python.JoinLayout` | api/weather.py:78 | the length, place and separator facts for one part of a join |
| `Python.JoinLaidOut` | api/weather.py:78 | `sep.join(parts)` meets the offset description `LaidOut`: all parts in order, one separator between neighbours, none at either end |
| `Weather.AlertViewOf` | api/weather.py:51-57 | each of the five fields is `str()` of the present value, else `Unknown` (event, area, severity), `No description available` or `No specific instructions provided` |
| `Weather.RenderAlert` | api/weather.py:52-58 | the alert template starts with its leading newline; `SplitRenderAlert` gives its seven lines |
| `Weather.FormatAlert` | api/weather.py:49-58 | a formatted alert is non-empty and starts with the template's leading newline |
| `Weather.SplitRenderAlert` | api/weather.py:52-58 | when no field holds a newline, the template is seven lines: a blank line, `Event: E`, `Area: A`, `Severity: S`, `Description: D`, `Instructions: I`, a blank line |
| `Weather.SplitFiveLines` | api/weather.py:52-58 | five newline-free lines between a leading and a trailing newline split back into those seven lines |
| `Weather.ParseFormatAlert` | api/weather.py:49-58 | parsing a formatted alert whose fields hold no newline gives back exactly its five defaulted fields, so the template loses nothing and labels each field |
| `Weather.FormatAlertDefaults` | api/weather.py:53-57 | an alert with none of the five properties shows `Unknown` three times, then `No description available` and `No specific instructions provided` |
| `Weather.AlertsUrl` | api/weather.py:68 | the alerts URL is the NWS base and `/alerts/active/area/`, followed by the state code unchanged |
| `Weather.AlertsUrlInjective` | api/weather.py:68 | the state code goes into the alerts URL unchanged, so different codes give different URLs |
| `Weather.FormatAlerts` | api/weather.py:77 | the list comprehension formats every feature, keeping the length and the input order |
| `Weather.JoinStartsWithNewline` | api/weather.py:78 | a join of parts that each start with a newline is empty or starts with a newline |
| `Weather.AlertsReply` | api/weather.py:71-78 | after the fetch, `get_alerts` answers with one of its two fixed messages or with joined alerts, which start with a newline |
| `Weather.AlertsUnavailableIff` | api/weather.py:71-72 | `Unable to fetch alerts or no alerts found.` comes back if and only if the request failed, the body is falsy or it has no `features` key |
| `Weather.NoActiveAlertsIff` | api/weather.py:74-75 | `No active alerts for this state.` comes back if and only if the body is truthy and has `features`, and `features` is falsy |
| `Weather.AlertsLayout` | api/weather.py:77-78 | with active alerts, the reply holds one formatted alert per feature, in input order, with `"\n---\n"` between neighbours (so `n - 1` separators) |
| `Weather.NoFeaturesScenario` | api/weather.py:74-75 | the answer `{"features": []}` gives `No active alerts for this state.` |
| `Weather.GetAlerts` | api/weather.py:62-78 | every reply of the tool is one of the two fixed messages or formatted alerts, which start with a newline |
| `Weather.PointsUrl` | api/weather.py:89 | the points URL is the NWS base and `/points/`, followed by the latitude, a comma and the longitude |
| `Weather.FetchLinked` | api/weather.py:96-97 | the second request goes to the string at `properties.forecast`; a link that is not a string yields `None`, as the fetcher's `try` does |
| `Weather.PeriodViewOf` | api/weather.py:107-110 | a period shows `str()` of its name, temperature, unit and forecast text, and its wind speed and direction joined by a space |
| `Weather.RenderPeriodView` | api/weather.py:106-111 | the period template over the substituted texts (`name:`, `Temperature: T°U`, `Wind: S D`, `Forecast: F`, each after a newline, with a closing newline) starts with its leading newline; `SplitRenderPeriod` gives its six lines |
| `Weather.RenderPeriod` | api/weather.py:106-111 | a formatted period is non-empty and starts with a newline |
| `Weather.SplitFourLines` | api/weather.py:106-111 | four newline-free lines between a leading and a trailing newline split back into those six lines |
| `Weather.SplitRenderPeriod` | api/weather.py:106-111 | when no text holds a newline and the temperature and unit hold no `°`, the period template is six lines: a blank line, `name:`, `Temperature: T°U`, `Wind: S D`, `Forecast: F`, a blank line |
| `Weather.ParseRenderPeriod` | api/weather.py:106-111 | reading back a formatted period whose texts hold no newline (and no degree sign in temperature and unit) gives its name, temperature, unit, wind and forecast text, so the template loses nothing |
| `Weather.RenderPeriods` | api/weather.py:105-112 | each period is formatted, keeping the length and the provider order |
| `Weather.GetForecast` | api/weather.py:81-114 | the tool's loop over the first five periods returns exactly `ForecastReply` of the points response and the fetcher |
| `Weather.ForecastReply` | api/weather.py:92-114 | after the points fetch, `get_forecast` answers with one of its two fallbacks or with the formatted periods, which are empty or start with a newline |
| `Weather.ForecastUnavailableIff` | api/weather.py:92-93 | `Unable to fetch forecast data for this location.` comes back if and only if the points request failed or its body is falsy |
| `Weather.DetailedForecastUnavailableIff` | api/weather.py:96-100 | `Unable to fetch detailed forecast.` comes back if and only if the points body is truthy and the request to its forecast link failed or returned a falsy body |
| `Weather.FallbacksDiffer` | api/weather.py:93-100 | the two forecast fallback messages differ, and each is non-empty and starts with `U`, never with a newline |
| `Weather.ForecastText` | api/weather.py:103-114 | the successful reply, `"\n---\n".join` of the formatted first `min(5, n)` periods: `""` for no periods, otherwise it begins with the first formatted period; `ForecastLayout` lays out all of them |
| `Weather.ForecastTextStart` | api/weather.py:104-114 | a successful forecast is empty (no periods) or starts with a newline, so it never equals a fallback message |
| `Weather.ForecastFollowsLink` | api/weather.py:96-97 | the second request goes to `properties.forecast` and nowhere else: fetchers that agree on that URL give the same reply |
| `Weather.ForecastLayout` | api/weather.py:103-114 | the forecast shows `min(5, n)` periods, the first ones in provider order, one `"\n---\n"` apart; it is `""` exactly when there are no periods |
| `Weather.ForecastIgnoresLaterPeriods` | api/weather.py:105 | periods after the fifth never change the forecast |
| `Weather.ProductsReplyOf` | api/weather.py:128-132 | the error reply comes back if and only if the fetcher yielded Python `None`: a failed request or a JSON `null` body. A list gives `items == data[:limit]` with `count == len(items)`, in the closed form for both signs of `limit`. Any other body is passed through with `count == 1`, whatever `limit` is |
| `Weather.NegativeLimitDropsTail` | api/weather.py:131 | a negative `limit` with `-limit < n` keeps the first `n + limit` items, a non-empty list, rather than emptying it |
| `Weather.EmptyListIff` | api/weather.py:130-132 | a list comes back with count 0 exactly when it was empty, `limit == 0` or `limit <= -len(data)` |
| `Weather.TwoOfFiveScenario` | api/weather.py:130-132 | `limit=2` on a five-item list gives the first two items and count 2 |
| `Weather.GetProducts` | api/weather.py:120-132 | the tool fails if and only if the request to the fixed products URL fails or returns a `null` body; a count is never negative |
| `Weather.DefaultLimitScenario` | api/weather.py:120 | called without `limit`, the tool keeps `min(50, n)` items of a list |

## Left out

- The HTTP fetchers `make_nws_request` and `product_request` (api/weather.py:16-41) are left out. They are network I/O: their headers, 30-second timeout, status check and JSON decoding. Only their result is modelled, as the `fetch` parameter.
- The server construction, the `@mcp.tool()` registration, the transport and the module-level `print` (api/weather.py:6, 61, 80, 119, 145-146) belong to the host runtime and are left out.
- `Weather.GetForecast`: the coordinates are taken as the texts Python prints for the floats. Float-to-text formatting is not modelled. For the same reason a JSON number is carried as its `str()` text.
- `Weather.FormatAlert`: a field whose value is a JSON list or dict is excluded by `IsAlertFeature`. The source would print its Python `repr`, and that rendering is not modelled. The same holds for the six period fields (`IsPeriod`).
- `Weather.AlertsReply`: a truthy body that is not a dict is excluded by `AlertsResponseOk`, because the fetcher is declared to return a dict. For a list, Python's `"features" in data` would test its elements.
- `Weather.ForecastReply`: a `periods` value that is not a list is excluded by `HasPeriods`. For a string, the source would slice it and format each character as a period, which raises; for an empty string it returns `""`. Neither is modelled.
- `Weather.ParseRenderPeriod`: the reader gives back wind speed and direction as one text (`Wind: S D`). NWS speeds such as `10 to 15 mph` contain spaces, so the line cannot be split into speed and direction.
- Dict key order is not modelled (`JObject` is a map). No tool's output depends on it: `get_products` passes a bare dict through unchanged.
- The async scheduling is left out: nothing in the handlers depends on it.
