# COVID-19 map page: the data-shaping core

A model of the pure logic inside the index page of `my-coronavirus-map`
(`src/pages/index.js`). The page fetches per-country case data and global
counters from a public API. It turns the country list into a GeoJSON
FeatureCollection, with one marker per country badged with a short case
count. It also fills a panel of nine counters and an error notice. The model
keeps the logic and drops the I/O and rendering around it:

- `Decimal`: how a template literal `${n}` writes an integer, with a matching
  parser (`DigitsValue`, `ParseInt`).
- `CaseBadge`: the badge text `casesString`. It is shortened to
  `"<digits>k+"` above 1000. `ReadBadge` reads a badge back.
- `Features`: the country payload and the FeatureCollection builder. This
  covers the `data = []` default, the `hasData` guard and the `data.map`
  callback.
- `MapEffect`: one run of the map effect. It covers the readiness guard, the
  location fallback to `LOCATION = (0, 0)`, the marker and popup placement,
  the silent stop on a failed fetch, and one marker view per feature. Leaflet
  rejects a Point with an absent coordinate, and that rejection is modelled:
  the run then adds no layer.
- `StatsPanel`: the `stats`/`error` state, what each counter cell selects and
  renders, and the error notice.

The outcomes of the network requests and of the location lookup are
parameters: `Option`/`Result` values.

Two behaviours of the code differ from what one might expect. Both are
modelled as the code has them:

- The `"-"` placeholder shows only when the whole `stats` value is falsy. A
  missing counter field renders nothing, not `"-"`.
- The initial state `[]` is truthy. So before the request settles, and after
  it fails, every cell is empty rather than `"-"` (`InitialPanelEmpty`,
  `FetchOutcome`).

## Model

| member | source | states |
|---|---|---|
| `Decimal.NatToString` | my-coronavirus-map/src/pages/index.js:103 | the numeral of a non-negative count is non-empty, all digits, with no leading zero; it starts with '0' exactly for 0 |
| `Decimal.IntToString` | my-coronavirus-map/src/pages/index.js:103 | the numeral of any integer is non-empty and ends in a digit |
| `Decimal.NatToStringRoundTrip` | my-coronavirus-map/src/pages/index.js:103 | reading the numeral of n gives back n |
| `Decimal.CanonicalRoundTrip` | my-coronavirus-map/src/pages/index.js:103 | every digit string without a leading zero is the numeral of its value, so numerals and counts correspond one to one |
| `Decimal.IntToStringRoundTrip` | my-coronavirus-map/src/pages/index.js:103 | parsing the numeral of any integer, sign included, gives back that integer |
| `Decimal.DropThreeDigits` | my-coronavirus-map/src/pages/index.js:106 | for n >= 1000 the numeral has at least four characters, and removing its last three leaves the numeral of n / 1000 |
| `CaseBadge.DropLastThree` | my-coronavirus-map/src/pages/index.js:106 | `slice(0, -3)` keeps a prefix of the string, three characters shorter, or empty when the string has three characters or fewer |
| `CaseBadge.AboveThreshold` | my-coronavirus-map/src/pages/index.js:103-106 | above 1000 the badge is the numeral minus its last three characters, then "k+"; the kept prefix is the non-empty numeral of cases / 1000; the badge is one character shorter than the numeral |
| `CaseBadge.AtMostThreshold` | my-coronavirus-map/src/pages/index.js:103-105 | at or below 1000 (negative counts included) the badge is exactly the numeral and does not end in "k+" |
| `CaseBadge.BadgeRoundTrip` | my-coronavirus-map/src/pages/index.js:103-107 | reading a badge back gives the whole thousands above the threshold and the exact count otherwise |
| `Features.FeaturesOf` | my-coronavirus-map/src/pages/index.js:77-90 | the map yields exactly one feature per record, at the same index, built by the callback |
| `Features.BuildCollection` | my-coronavirus-map/src/pages/index.js:68-91 | a collection is built exactly when the payload is a non-empty array; an absent, non-array or empty payload yields none; when built its type is "FeatureCollection" |
| `Features.FeatureOfRecord` | my-coronavirus-map/src/pages/index.js:77-90 | each feature has type "Feature", holds a "Point" geometry, carries the record as its properties and has coordinates [long, lat]; reading the position back gives the record's countryInfo; a record without countryInfo still yields a feature, with both coordinates absent |
| `Features.RecordsOfFeatures` | my-coronavirus-map/src/pages/index.js:77-90 | the features' properties, in order, are exactly the input records: nothing is filtered or reordered |
| `Features.CollectionOfPayload` | my-coronavirus-map/src/pages/index.js:68-91 | for a non-empty array the collection has one Point feature per record, in input order, whose properties are the records and whose positions read back as the records' lat/long |
| `Features.CoordinateOrderExample` | my-coronavirus-map/src/pages/index.js:78-88 | lat 10 and long 20 give coordinates [20, 10], longitude first |
| `MapEffect.EffectPosition` | my-coronavirus-map/src/pages/index.js:29-42 | the effect runs only when both marker and map are ready; marker and popup get the same position: exactly (0, 0) when the lookup fails, the looked-up location otherwise; a marker the effect does not move stays at its initial position `CENTER`, (0, 0) |
| `MapEffect.EffectLayer` | my-coronavirus-map/src/pages/index.js:59-138 | a layer is added exactly when the fetch succeeded with a non-empty array whose records all carry a latitude and a longitude; it holds one marker per country, in order, badged with that country's case string and raised on hover; a failed fetch, a rejected payload or a record without a position adds nothing |
| `StatsPanel.CellText` | my-coronavirus-map/src/pages/index.js:186 | a cell shows "-" exactly when stats is falsy; otherwise it shows nothing for a missing field and a numeral that parses back to the field's value for a present one |
| `StatsPanel.PanelCells` | my-coronavirus-map/src/pages/index.js:184-221 | the panel has nine cells with their captions in order; cell i renders the field `stats?.COUNTERS[i]`: "-" exactly when stats is falsy, otherwise a numeral that parses back to that field's value when it is present |
| `StatsPanel.InitialPanelEmpty` | my-coronavirus-map/src/pages/index.js:152 | with the initial `[]` every cell is empty and none shows "-" |
| `StatsPanel.NoticeIff` | my-coronavirus-map/src/pages/index.js:182 | the error notice appears exactly when the error string is non-empty, and it shows that string |
| `StatsPanel.FetchOutcome` | my-coronavirus-map/src/pages/index.js:152-162 | while pending the page is in its initial state; on success stats is the response data and no notice shows; on failure the notice shows the error message exactly when it is non-empty, and the cells stay empty |
| `StatsPanel.PartialStatsExample` | my-coronavirus-map/src/pages/index.js:185-196 | for `{cases: 500}`, "Total Tests" is empty and "Total Cases" shows "500" |

## Left out

- Network requests (`axios.get` for the countries and the global counters), the location lookup `getCurrentLocation` and `console.log`. Their outcomes are `Option`/`Result` parameters. `getCurrentLocation` (`lib/map`) is not part of this model.
- React hooks, effect scheduling and re-runs, and the async function. One run of the map effect and one settled stats request are modelled as functions.
- Leaflet: `L.popup`, `L.GeoJSON`, `L.marker`, `L.divIcon` and `addTo`. The in-place `setLatLng` on the marker and popup is represented by the positions the effect returns. Of Leaflet's conversion of a Point into a `LatLng`, the model keeps only its coordinate order (`Features.PositionOf`) and its rejection of an absent coordinate (`MapEffect.Placeable`). Its rejection of other non-numeric values is not modelled, since coordinates here are either a number or absent. Leaflet's source is not part of this model; its behaviour is taken from its documented 1.x `LatLng` constructor.
- MapEffect.EffectLayer: the condition under which a layer is added relies on Leaflet throwing for a Point with an absent coordinate. The feature builder itself keeps such a feature (`Features.FeatureOfRecord`), as the page's code does.
- The tooltip HTML (country, deaths, recovered) and the locale-dependent `toLocaleString` of `updated`. These are presentation only; the records keep the fields.
- The commented-out fly-to and popup code.
- Floating point. Coordinates are `real` values that are only copied and swapped. Counts and counter values are integers.
- Decimal.IntToString: writes every integer in plain decimal. JavaScript writes numbers from 1e21 up in exponent form, and loses precision above 2^53.
- A JSON `null` element of the countries array, or a `null` `countryInfo`, would make the destructuring throw. The payload is modelled as an array of records whose `countryInfo` is present or absent.
- A record without a `cases` field would show the badge "undefined". `cases` is modelled as always present.
