# HyderAQI in Dafny

A model of the deterministic core of HyderAQI, a single-page air-quality
dashboard for Hyderabad. The model covers:

- the six-band AQI classification used by the dashboard (`getAQICategory`) and
  by the map (`getAqiColor`);
- the fixed registry of five monitored locations and the synthetic 24-hour
  trend built around a location's AQI (`getHistoricalData`);
- the search-grounded area resolver (`fetchAreaAqiViaSearch`): two model
  calls, `JSON.parse`, the `||` defaults, and the record it synthesises;
- the fallback strings of `getHealthInsights` and `chatWithAQI`;
- the map markers, their selection test and their click targets;
- the dashboard state behind search, selection and chat, as a class
  `App.Dashboard` whose methods change its fields.

Modules follow the source files: `Types` (types.ts, plus the band cuts both
classifiers are proved against), `MockData` (data/mockData.ts),
`GeminiService` (services/geminiService.ts), `AQIMap` (components/AQIMap.tsx)
and `App` (App.tsx). `JsText` states the JavaScript built-ins the code uses
(`find`, `toLowerCase`, `includes`, `trim`, number-to-string) over `string`.

The external generative-model service is not modelled. Each call is a
function parameter that yields the answer or the thrown error (`Result`).
Clock readings (`Date.now()`, `toISOString()`, the registry's load time, the
trend's "now") and `Math.random()` draws are parameters too.

Three behaviours of the code are worth noting, because a reader might expect
otherwise:

- The trend is not clamped at zero. Over the real registry every baseline is
  at least 85, so no point falls below 65 (`MockData.RegistrySeriesPositive`).
- `chatWithAQI` opens a fresh chat session on every call and ignores its
  `history` argument. No turn sees earlier turns.
- The resolver's id is `search-` followed by the millisecond clock, with no
  counter or random suffix. Ids are distinct only when the clock readings are.

## Model

| member | source | states |
|---|---|---|
| Types.CutsExceededMonotone | App.tsx:17-22 | a larger AQI exceeds at least as many band cuts |
| Types.BandIndex | App.tsx:17-22 | the band index of every AQI over the cuts 50/100/150/200/300, each band closed at its upper cut |
| App.GetAQICategory | App.tsx:16-23 | the category's severity is the number of cuts the AQI exceeds; each band holds exactly its interval (≤50 Good, 51–100 Moderate, …, >300 Hazardous) |
| Types.LabelsDistinct | App.tsx:17-22 | different bands show different labels |
| App.CategoryLabelsAtCuts | App.tsx:17-22 | the labels on both sides of each cut: 50 "Good", 51 "Moderate", …, 300 "Very Unhealthy", 301 "Hazardous" |
| App.CategoryMonotone | App.tsx:17-22 | if a ≤ b, the band of a is no more severe than the band of b |
| AQIMap.GetAqiColor | components/AQIMap.tsx:11-18 | the colour is the band colour indexed by the number of cuts the AQI exceeds |
| AQIMap.BandColorsDistinct | components/AQIMap.tsx:12-17 | the six band colours are pairwise different |
| AQIMap.MarkerColor | components/AQIMap.tsx:86 | a marker's dot has the colour of the band its registry entry's AQI falls in |
| App.ColorAgreesWithCategory | components/AQIMap.tsx:11-17 | the map colour and the dashboard category put every AQI in the same band |
| App.BarPercentage | App.tsx:441-442 | the bar is at most 100; below the scale it is value/max·100, at or above it exactly 100 |
| App.PollutantBars | App.tsx:297-302 | the six bars, each at most 100: PM2.5 against 100, PM10 against 200, NO2 and SO2 against 50, CO against 5, O3 against 100 |
| App.InsightsDisplay | App.tsx:52-56 | the insights panel never shows an empty text; a non-empty result is shown unchanged, an empty one as exactly "Unable to generate insights." |
| JsText.Find | data/mockData.ts:54 | `find` returns the first element satisfying the test, and none exactly when no element does |
| JsText.Includes | App.tsx:64 | `includes` holds exactly when the needle occurs at some position of the haystack |
| JsText.TrimEmptyIffBlank | App.tsx:60 | a term trims to "" exactly when every character is white space |
| App.LocalMatch | App.tsx:63-65 | the chosen entry's lower-cased name contains the lower-cased untrimmed term, no earlier entry's does, and none is chosen exactly when no name matches |
| JsText.ParseNatToString | services/geminiService.ts:76 | reading back the decimal rendering of a timestamp gives the timestamp |
| JsText.NatToStringInjective | services/geminiService.ts:76 | distinct timestamps render as distinct strings |
| GeminiService.SearchId | services/geminiService.ts:76 | a search id starts with "search-" |
| GeminiService.SearchIdsDistinct | services/geminiService.ts:76 | searches at distinct timestamps get distinct ids |
| App.SearchIdIsFresh | services/geminiService.ts:76 | no search id equals a registry id, and no search id highlights a map marker |
| GeminiService.GetHealthInsights | services/geminiService.ts:20-32 | the model's text on success, exactly "Could not fetch AI insights at this time." on error |
| GeminiService.ChatWithAQI | services/geminiService.ts:99-112 | the reply's text on success, exactly the fixed apology on error |
| GeminiService.ChatIgnoresHistory | services/geminiService.ts:99-109 | the reply does not depend on the `history` argument |
| GeminiService.GroundingSources | services/geminiService.ts:49 | the first candidate's grounding chunks when all links are present, otherwise the empty list |
| GeminiService.OrElse | services/geminiService.ts:78-87 | a present nonzero parsed value is kept; an absent value or 0 gives the fallback |
| GeminiService.SynthesizeLocation | services/geminiService.ts:75-90 | id "search-"+timestamp, name = area + " (Live Search)", aqi/pm25/pm10/temp kept or 100/35/70/30, no2=20, so2=5, co=1.0, o3=40, humidity=50, and none of the four extracted fields is 0 |
| GeminiService.FetchAreaAqiViaSearch | services/geminiService.ts:35-97 | a result exactly when the search call, the extraction call and `JSON.parse` all succeed; it holds the synthesised record and the first call's grounding sources; any failure gives null |
| GeminiService.FetchedRecordComplete | services/geminiService.ts:75-96 | a returned record never carries a falsy AQI, PM2.5, PM10 or temperature, and its name is the area plus " (Live Search)" |
| MockData.HyderabadLocations | data/mockData.ts:4-50 | five entries with pairwise distinct ids, each stamped with the load time, each AQI at least 85 |
| MockData.RegistryIdsFixed | data/mockData.ts:6-42 | the registry's ids, in order, whatever the load time |
| MockData.BaseAqi | data/mockData.ts:54 | the AQI of the first entry with the id when that AQI is nonzero, otherwise 100; never 0 |
| MockData.RegistryBaseline | data/mockData.ts:54 | over the real registry, a registered id's baseline is its entry's AQI and any other id's is 100 |
| MockData.Series | data/mockData.ts:56-63 | 25 points, the last stamped now, each one at least an hour after the previous, each AQI within [baseline−20, baseline+20] |
| MockData.GetHistoricalData | data/mockData.ts:52-65 | the loop from i = 24 down to 0 builds exactly the series of the looked-up baseline, the k-th point (24−k) hours before now with the k-th jitter |
| MockData.RegistrySeriesPositive | data/mockData.ts:54-61 | for any id, no point of the trend over the real registry is below 65 |
| AQIMap.MarkersMatchRegistry | components/AQIMap.tsx:34-67 | marker i shows registry entry i, is highlighted exactly when the selected id is entry i's id, and a click passes entry i |
| AQIMap.AtMostOneSelected | components/AQIMap.tsx:37-65 | no two markers are highlighted at once |
| App.Dashboard.constructor | App.tsx:26-37 | the first registry entry is selected; term, citations, chat input and transcript are empty; no search or chat is in flight |
| App.Dashboard.EditSearchTerm | App.tsx:123 | only the search term changes |
| App.Dashboard.Select | App.tsx:235 | the location is selected and the citations are emptied; nothing else changes |
| App.Dashboard.ClickMarker | App.tsx:243 | clicking a marker selects the registry entry with the marker's id and empties the citations |
| App.Dashboard.BeginSearch | App.tsx:58-76 | only when no search is in flight (the submit button is disabled then, App.tsx:128-131); blank term: nothing changes; local match: first matching entry selected, term and citations cleared, no request; otherwise the search starts with the untrimmed term as request |
| App.Dashboard.FinishSearch | App.tsx:77-85 | searching ends; a result replaces selection and citations and clears the term; null leaves them unchanged |
| App.Dashboard.HandleSearch | App.tsx:58-86 | the whole search, started when none is in flight: the resolver is consulted only for a non-blank unmatched term, and its result or failure is applied as above |
| App.Dashboard.EditChatInput | App.tsx:400 | only the chat input changes |
| App.Dashboard.BeginSendMessage | App.tsx:88-95 | blank input: nothing changes; otherwise input cleared, the user's message appended, the assistant is thinking |
| App.Dashboard.FinishSendMessage | App.tsx:96-97 | the assistant's reply is appended and thinking ends |
| App.Dashboard.HandleSendMessage | App.tsx:88-98 | a non-blank message grows the transcript by exactly two entries, the user's message then the reply or apology, with earlier entries untouched |

## Left out

- Layout, styling, the chart, the icons, the scroll effect, `alert`, `console.error` and the fixed display values: presentation only.
- The generative-model client, the prompt texts, the search tool, the response schema and the chat persona: foreign calls, modelled as opaque `Result`-valued parameters.
- The effect that, on each change of selection, regenerates the trend and requests new insights is not a state transition of `App.Dashboard`; the functions it calls are modelled on their own.
- Overlapping asynchronous calls beyond one Begin/Finish pair, such as a stale insights answer overwriting a newer one: concurrency, with no ordering guard in the code.
- The chat panel's open/closed flag and the disabled state of the send button: presentation only, since the Enter key sends regardless.
- JsText.LowerChar: lower-cases the ASCII letters only, while `toLowerCase` also folds other Unicode letters.
- GeminiService.ParsedReading: parsed fields are whole numbers or absent. Fractional numbers, NaN, and values of other JSON types are not modelled.
- GeminiService.ChatWithAQI: `ai.chats.create` runs outside the `try`, so a throw there would reject `handleSendMessage` after the user's message is appended; the model only lets sending fail.
- GeminiService.GetHealthInsights: an answer whose `text` is undefined is not modelled; an empty answer is covered by `App.InsightsDisplay`.
- MockData.Series: each sample's time is a millisecond clock value; the `toLocaleTimeString` formatting is not modelled, and one clock reading stands for the reading taken on each iteration.
- MockData.Series: stepping the local wall clock back with `setHours(getHours() - i)` is modelled as subtracting i whole elapsed hours; across a daylight-saving change the real stamps can coincide (spring forward) or skip an hour (fall back), which the one-hour spacing does not capture.
- MockData.GetHistoricalData: the same wall-clock simplification; each point is stamped `now - i` elapsed hours.
- MockData.HyderabadLocations: one load-time reading stands for the five `toISOString()` calls.
- AQI, PM2.5, PM10, NO2, SO2, O3, temperature and humidity are integers, and CO a real.
