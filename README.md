# Weather-station dashboard: data pipeline model

A Dafny model of the data pipeline of the web dashboard in `webapp/app.js`: the
dashboard shows the latest live reading of a weather station, received over MQTT,
and draws history charts from InfluxDB. Four pieces of that pipeline are modelled
and proved:

- **CSV decoder** (`CsvDecoder`): `parseInfluxCSV`, which turns InfluxDB's annotated
  CSV into `{time, value}` points. The text is trimmed and split at line feeds.
  Each line is then skipped as an annotation (`#`), skipped as the column-name
  header (`_time` and `_value`, or `,result,` while no header has been seen),
  skipped when blank, dropped with fewer than 7 comma fields, or read by position
  (time in field 5, value in field 6). A row with an empty time or an unparseable
  value is dropped. `parseFloat` together with its `isNaN` test is the parameter
  `parse: string -> Option<real>`, with `None` for NaN. The method
  `ParseInfluxCSV` keeps the source's loop, header flag and growing output; it is
  proved equal to the specification function `Decode`. The properties are proved
  about `Decode`: where each point comes from, order, completeness, length, and
  the header flag.
- **Query planner and fetch** (`InfluxQuery`): the aggregation bucket chosen from
  the look-back window (2h / 1h / 30m / 10m / 5m, first match wins), the Flux
  query text, and what `fetchInfluxData` returns. The network is the parameter
  `send: string -> HttpOutcome`.
- **Freshness classifier** (`Freshness`): the fresh / stale / offline label and the
  relative-age text ("45s temu", "2min temu", "2h temu") of `updateCurrentView`.
  Everything is computed from the receipt time and a `now` parameter.
- **Live-feed ingestor** (`LiveFeed`): the class `Dashboard` holds `currentData`,
  the latest reading per station as a `map`, and `currentStation`.
  `HandleDataUpdate` replaces the station's entry with the payload stamped
  `receivedAt = now`. It returns the refreshed card exactly when that station is
  on screen.

`Text` models the JavaScript string operations the pipeline uses: `trim` (the
full ECMAScript whitespace set), `split` on one character, `includes`,
`startsWith`, and the decimal text of an integer. `Optional` holds `Option`.

Points where the code behaves differently from what a reader of the dashboard might expect, and which the model keeps as the code has them:

- The Flux query never mentions the station: `fetchInfluxData(stationId, …)`
  ignores its first argument (`QueryIgnoresStation`).
- The bucket widths do not keep the point count within fixed bounds for every
  window. Between 6 hours and a week a window holds 36 to 167 buckets. From a week
  on it holds `hours / 2`, which grows with the window (`BucketsInWindowBounds`).
- The relative-age text carries the suffix " temu" (Polish for "ago"), as in
  "45s temu".
- On a live refresh the card is drawn from the payload as received, not from the
  stamped copy in `currentData`. A payload has no `receivedAt`, so the card then
  shows age 0: "fresh", "0s temu" (`LiveRefreshShowsJustReceived`). A stored reading
  shown later, on station selection, is aged from its stamp (`StoredReadingAge`).

## Model

| member | source | states |
|---|---|---|
| `CsvDecoder.Lines` | webapp/app.js:447 | the lines of the response: `csv.trim().split('\n')` |
| `CsvDecoder.Decode` | webapp/app.js:446-495 | the specification of `parseInfluxCSV`: the points of the lines, walked in order with a header flag that starts unset |
| `CsvDecoder.ClassifyLine` | webapp/app.js:453-486 | the treatment of one line under the header flag, in the source's order of tests: annotation, `_time`/`_value` header, `,result,` header while no header is found, blank, otherwise `RowKind` |
| `CsvDecoder.RowKind` | webapp/app.js:472-486 | a line of fewer than 7 comma fields is too short; otherwise it is a point of field 5 and the parse of field 6 when field 5 is non-empty and field 6 parses, and dropped otherwise |
| `CsvDecoder.RowAccepted` | webapp/app.js:464-486 | a well-formed data row (not an annotation, not a header, at least 7 fields, non-empty field 5, parseable field 6) is read as exactly its point, unless it is a `,result,` line met before any header |
| `CsvDecoder.DataRowDecoded` | webapp/app.js:451-491 | every such data row of the response contributes its point to the output, at the position whose origin is that row |
| `CsvDecoder.ParseInfluxCSV` | webapp/app.js:446-495 | the loop's output equals `Decode(csv, parse)`: the lines of the trimmed text, walked with a header flag that starts unset |
| `CsvDecoder.ReadLine` | webapp/app.js:452-490 | one loop pass: the point the line adds (none or one) and the new header flag agree with the line's classification |
| `CsvDecoder.RowOrigin` | webapp/app.js:470-486 | a line yields a point only if it is not an annotation, not a `_time`/`_value` header and not blank, and has at least 7 fields; the point's time is field 5 and non-empty, and its value is the parse of field 6 |
| `CsvDecoder.CommentSkipped` | webapp/app.js:453-455 | a line starting with `#` is skipped whatever the header flag, and leaves the flag as it was |
| `CsvDecoder.HeaderLineSkipped` | webapp/app.js:458-461 | a non-annotation line containing both `_time` and `_value` is skipped and sets the header flag |
| `CsvDecoder.ResultLineOnlyBeforeHeader` | webapp/app.js:464-467 | a line with `,result,` that is not otherwise a header is skipped while no header has been found, and read as a data row once one has |
| `CsvDecoder.HeaderStaysFound` | webapp/app.js:449-467 | once the header flag is set at some line it is set at every later line |
| `CsvDecoder.DecodeLength` | webapp/app.js:451-491 | at most one point per line: the output is never longer than the lines it comes from |
| `CsvDecoder.DecodeOrigins` | webapp/app.js:451-491 | the k-th point is the `Row` of line `OriginsFrom[k]`, read under that line's header flag; these line indices increase strictly, so points keep the order of their lines; every line that yields a row is among them |
| `CsvDecoder.PointProvenance` | webapp/app.js:472-486 | every output point comes from its own data row of at least 7 fields, in row order, with time = field 5 (non-empty) and value = parse of field 6 |
| `CsvDecoder.NoRowsNoPoints` | webapp/app.js:448-494 | the result is empty exactly when no line is a readable data row; there is no error case |
| `CsvDecoder.EmptyResponse` | webapp/app.js:447-448 | an empty or all-whitespace response decodes to no points |
| `Text.Trim` | webapp/app.js:447 | `trim` leaves no whitespace at either end of the result |
| `Text.TrimStart` | webapp/app.js:447 | the result is a suffix of the input, everything dropped is whitespace, and the result does not start with whitespace |
| `Text.TrimEnd` | webapp/app.js:447 | the result is a prefix of the input, everything dropped is whitespace, and the result does not end with whitespace |
| `Text.TrimEmptyIff` | webapp/app.js:470 | `line.trim()` is empty exactly when every character of the line is whitespace |
| `Text.Split` | webapp/app.js:472 | `split(',')` gives one more piece than there are separators, and no piece contains the separator |
| `Text.JoinSplit` | webapp/app.js:447 | joining the pieces of a split with the separator gives back the original text |
| `Text.SplitJoin` | webapp/app.js:472 | splitting the join of separator-free pieces gives back exactly those pieces |
| `Text.StartsWith` | webapp/app.js:453 | `line.startsWith('#')`: the line is non-empty and its first character is `#` |
| `Text.Contains` | webapp/app.js:458-464 | `line.includes(sub)`: `sub` is a prefix of the line or of some suffix of it |
| `Text.ContainsIff` | webapp/app.js:458-464 | `includes` holds exactly when the substring occurs at some position |
| `Text.ContainsInfix` | webapp/app.js:458-464 | a text contains every substring it was built around |
| `Text.IntToDecimal` | webapp/app.js:247-249 | the decimal text of an integer is non-empty digits, with a leading `-` for negative values |
| `Text.IntDecimalRoundTrip` | webapp/app.js:247-249 | reading back the decimal text of an integer gives the integer |
| `Text.IntToDecimalInjective` | webapp/app.js:416 | distinct integers have distinct decimal texts |
| `InfluxQuery.BucketFor` | webapp/app.js:419 | bucket 2h iff hours >= 168, 1h iff 48 <= hours < 168, 30m iff 24 <= hours < 48, 10m iff 6 <= hours < 24, 5m iff hours < 6 |
| `InfluxQuery.BucketMonotone` | webapp/app.js:419 | a longer window never gets a narrower bucket |
| `InfluxQuery.BucketWidthsDistinct` | webapp/app.js:419 | the five buckets have five distinct widths and five distinct duration literals |
| `InfluxQuery.BucketsInWindowBounds` | webapp/app.js:419 | windows from 6 h up to a week span 36 to 167 buckets; from a week on a window spans `hours / 2` buckets; below 6 h it spans `12 * hours` |
| `InfluxQuery.RangeClause` | webapp/app.js:416 | the `range(start: -{hours}h)` stage, with `hours` in decimal |
| `InfluxQuery.FieldFilter` | webapp/app.js:418 | the filter stage `r["_field"] == "{field}"` |
| `InfluxQuery.AggregateClause` | webapp/app.js:419 | the `aggregateWindow(every: {bucket}, fn: mean, createEmpty: false)` stage with the planner's bucket |
| `InfluxQuery.FluxQuery` | webapp/app.js:414-421 | the query text: from bucket `weather_data`, then the range, measurement filter, field filter, aggregation and `yield(name: "mean")` lines, with the template's indentation |
| `InfluxQuery.IsOk` | webapp/app.js:434 | `response.ok`: a status from 200 to 299 |
| `InfluxQuery.QueryClauses` | webapp/app.js:414-421 | the query always contains the `_measurement == "weather_measurement"` filter, the `_field == field` filter, `range(start: -{hours}h)` and `aggregateWindow(every: bucket, fn: mean, createEmpty: false)` |
| `InfluxQuery.AggregateNamesBucket` | webapp/app.js:419 | the aggregation clause names the bucket the planner chose |
| `InfluxQuery.RangeClauseInjective` | webapp/app.js:416 | different windows give different range clauses |
| `InfluxQuery.QueryIgnoresStation` | webapp/app.js:413-421 | the query text is the same whichever station is asked for |
| `InfluxQuery.FetchInfluxData` | webapp/app.js:423-443 | the result is `null` exactly on a transport failure or a non-2xx status; on success it is the decoded body |
| `Freshness.ReceivedTime` | webapp/app.js:243 | `data.receivedAt`, or `Date.now()` when that is falsy: the receipt time, or now when it is missing or zero |
| `Freshness.Age` | webapp/app.js:243-244 | a missing or zero receipt time gives age 0; otherwise the age is `now` minus the receipt time |
| `Freshness.Classify` | webapp/app.js:245 | fresh iff age < 30000, stale iff 30000 <= age < 300000, offline iff age >= 300000 |
| `Freshness.ClassifyMonotone` | webapp/app.js:245 | the label only moves fresh to stale to offline as the age grows |
| `Freshness.ClassifyBoundaries` | webapp/app.js:245 | 29999 ms is fresh, 30000 and 299999 ms are stale, 300000 ms is offline |
| `Freshness.AgeInUnits` | webapp/app.js:246-249 | seconds iff age < 60 s, minutes iff 60 s <= age < 1 h, hours otherwise; the count is the age rounded down to whole seconds, minutes or hours |
| `Freshness.TimeText` | webapp/app.js:247-249 | the decimal count followed by "s temu", "min temu" or "h temu", for the count and unit of `AgeInUnits` |
| `Freshness.StatusAt` | webapp/app.js:243-249 | the label and the age text for a receipt time at time `now` |
| `Freshness.TimeTextExamples` | webapp/app.js:246-249 | 45 s reads "45s temu", 125 s reads "2min temu", 7200 s reads "2h temu" |
| `Freshness.TimeTextDeterminesLabel` | webapp/app.js:247-249 | two ages with the same text have the same count and unit |
| `Freshness.UnstampedIsFresh` | webapp/app.js:243-249 | a reading without a receipt time is fresh and reads "0s temu" |
| `LiveFeed.Stamp` | webapp/app.js:106-109 | the stored copy is the payload with `receivedAt` replaced by the ingestor's clock and nothing else changed |
| `LiveFeed.Ingest` | webapp/app.js:106-109 | the store after a message has the sender's entry replaced by the stamped payload, every other entry unchanged, and no other key added |
| `LiveFeed.IngestOverwrites` | webapp/app.js:106-109 | two successive messages for one station leave only the second |
| `LiveFeed.IngestCommutes` | webapp/app.js:106-109 | messages for different stations do not disturb each other's entries |
| `LiveFeed.Render` | webapp/app.js:238-249 | the card shows the given reading, with the label and the age text computed from that reading's own receipt time |
| `LiveFeed.LiveRefreshShowsJustReceived` | webapp/app.js:111-113 | a refresh triggered by a live message shows the payload as fresh, "0s temu" |
| `LiveFeed.StoredReadingAge` | webapp/app.js:223-224 | a stored reading shown later is labelled by the time since it was stamped |
| `LiveFeed.Dashboard.constructor` | webapp/app.js:23-25 | at start-up no reading is stored and no station is selected |
| `LiveFeed.Dashboard.HandleDataUpdate` | webapp/app.js:105-114 | `currentData` becomes `Ingest(old currentData, data, now)`; the selection is unchanged; a refresh happens iff the selected station is the message's station, and shows the payload |
| `LiveFeed.Dashboard.OnMessage` | webapp/app.js:95-102 | an undecodable message changes nothing; a decoded one is handled as by `HandleDataUpdate` |
| `LiveFeed.Dashboard.SelectStation` | webapp/app.js:215-228 | the station becomes current; the card shows its stored reading if there is one, otherwise the loading state |

## Left out

- DOM work, tabs, dropdowns and the station selector's event wiring (`initTabs`,
  `switchTab`, `initDropdowns`, `initStationSelector`). They are user-interface glue.
  `SelectStation` keeps only the choice between the stored reading and the loading state.
- The Leaflet map and markers, and Chart.js drawing (`renderChart`). They are foreign
  libraries.
- The network: the HTTP request and its headers, and the MQTT connection, subscription
  and status indicator. The HTTP answer is the parameter `send`. A decoded MQTT payload
  is a parameter of `OnMessage`, with `None` when `JSON.parse` fails.
- How `parseFloat` reads a number. It is the parameter `parse`; float values are not
  interpreted.
- The four concurrent chart loads of `loadAllCharts` and the order in which their
  results arrive. No concurrency is modelled.
- Chart label formatting with `Date.getHours()` (depends on the local time zone),
  the `toFixed` display of sensor values, and the `console` diagnostics.
- `parseInt` of the selected range yielding NaN: `hours` is an integer.
- The source reads `Date.now()` up to three times per update (`handleDataUpdate`, and
  twice in `updateCurrentView`), and those reads can differ by a millisecond. The model
  uses one `now` per call.
- A payload without `station_id` (JavaScript would file it under the key "undefined"),
  and exceptions thrown by `updateCurrentView` on a payload without `sensors`.
- `currentData` is a plain JavaScript object, not a map. A `station_id` that names a
  member of `Object.prototype` is not modelled: storing under `"__proto__"` replaces the
  object's prototype instead of adding a key (so `Ingest` does not hold for it), and
  selecting `"toString"` finds the inherited function, so the source calls
  `updateCurrentView` on it and throws, where `SelectStation` shows the loading state.
- `data_emulator.py`, `mqtt_to_influxdb.py` and `mqtt_subscriber.py`. They generate
  random data or move messages between clients, and are not part of this model.
- The `try`/`catch` inside the decoder's loop is not modelled: with at least 7 fields,
  indexing fields 5 and 6 cannot throw.
