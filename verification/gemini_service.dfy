/** The three calls to the generative-model service (services/geminiService.ts).
    The service itself is not modelled: each call is a function parameter that
    yields the call's answer or the error it threw. */
module GeminiService {
  import opened Types
  import JsText

  const InsightsFallback: string := "Could not fetch AI insights at this time."
  const ChatFallback: string := "I'm having trouble connecting right now. Please try again later."

  /** `getHealthInsights`: the model's text, or the fixed apology when the call throws.
      `generate` is the model call for the prompt built from `data`. */
  function GetHealthInsights(data: LocationData, generate: LocationData -> Result<string>): (text: string)
    ensures generate(data).Ok? ==> text == generate(data).value
    ensures generate(data).Err? ==> text == InsightsFallback
  {
    match generate(data)
    case Ok(answer) => answer
    case Err(_) => InsightsFallback
  }

  /** A turn of the transcript a caller may pass to `chatWithAQI`. */
  datatype HistoryEntry = HistoryEntry(role: string, text: string)

  /** `chatWithAQI`: opens a fresh chat session, sends `message` alone, and
      gives the reply's text, or the fixed apology when sending throws.
      `send` is the session's reply to a first message. */
  function ChatWithAQI(message: string, history: seq<HistoryEntry>, send: string -> Result<string>): (reply: string)
    ensures send(message).Ok? ==> reply == send(message).value
    ensures send(message).Err? ==> reply == ChatFallback
  {
    match send(message)
    case Ok(answer) => answer
    case Err(_) => ChatFallback
  }

  /** The reply does not depend on the history passed in. */
  lemma ChatIgnoresHistory(message: string, h1: seq<HistoryEntry>, h2: seq<HistoryEntry>, send: string -> Result<string>)
    ensures ChatWithAQI(message, h1, send) == ChatWithAQI(message, h2, send)
  {
  }

  /** A web source the grounded search drew on. */
  datatype Citation = Citation(uri: Option<string>, title: Option<string>)

  datatype GroundingMetadata = GroundingMetadata(groundingChunks: Option<seq<Citation>>)

  datatype Candidate = Candidate(groundingMetadata: Option<GroundingMetadata>)

  /** The answer of the search-grounded call: its text and the optional candidate list. */
  datatype SearchResponse = SearchResponse(text: string, candidates: Option<seq<Candidate>>)

  /** The object `JSON.parse` yields from the extraction answer; a key that is
      absent (or null) is None. */
  datatype ParsedReading = ParsedReading(aqi: Option<int>, pm25: Option<int>, pm10: Option<int>, temp: Option<int>)

  /** What a successful search hands to the dashboard. */
  datatype SearchResult = SearchResult(data: LocationData, sources: seq<Citation>)

  /** `candidates?.[0]?.groundingMetadata?.groundingChunks || []`. */
  function GroundingSources(response: SearchResponse): (sources: seq<Citation>)
    ensures (response.candidates.Some? && |response.candidates.value| > 0
             && response.candidates.value[0].groundingMetadata.Some?
             && response.candidates.value[0].groundingMetadata.value.groundingChunks.Some?)
            ==> sources == response.candidates.value[0].groundingMetadata.value.groundingChunks.value
    ensures (response.candidates.None? || |response.candidates.value| == 0
             || response.candidates.value[0].groundingMetadata.None?
             || response.candidates.value[0].groundingMetadata.value.groundingChunks.None?)
            ==> sources == []
  {
    match response.candidates
    case None => []
    case Some(cs) =>
      if |cs| == 0 then []
      else match cs[0].groundingMetadata
        case None => []
        case Some(m) => match m.groundingChunks
          case None => []
          case Some(chunks) => chunks
  }

  /** `value || fallback` for a parsed number: an absent value and 0 are falsy. */
  function OrElse(value: Option<int>, fallback: int): (r: int)
    ensures value.Some? && value.value != 0 ==> r == value.value
    ensures value.None? || value.value == 0 ==> r == fallback
  {
    if value.Some? && value.value != 0 then value.value else fallback
  }

  const SearchIdPrefix: string := "search-"
  const LiveSearchSuffix: string := " (Live Search)"

  /** `search-${Date.now()}`. */
  function SearchId(nowMs: nat): (id: string)
    ensures |id| > |SearchIdPrefix| && id[..|SearchIdPrefix|] == SearchIdPrefix
  {
    SearchIdPrefix + JsText.NatToString(nowMs)
  }

  /** Two searches at different instants get different ids. */
  lemma SearchIdsDistinct(t1: nat, t2: nat)
    requires t1 != t2
    ensures SearchId(t1) != SearchId(t2)
  {
    JsText.NatToStringInjective(t1, t2);
    var s1, s2 := JsText.NatToString(t1), JsText.NatToString(t2);
    assert SearchId(t1)[|SearchIdPrefix|..] == s1;
    assert SearchId(t2)[|SearchIdPrefix|..] == s2;
  }

  /** The record built from a parsed reading: the four extracted numbers with
      their defaults, the other readings fixed. */
  function SynthesizeLocation(areaName: string, parsed: ParsedReading, nowMs: nat, isoNow: string): (loc: LocationData)
    ensures loc.id == SearchId(nowMs)
    ensures loc.name == areaName + LiveSearchSuffix
    ensures loc.aqi == OrElse(parsed.aqi, 100)
    ensures loc.pollutants.pm25 == OrElse(parsed.pm25, 35)
    ensures loc.pollutants.pm10 == OrElse(parsed.pm10, 70)
    ensures loc.temperature == OrElse(parsed.temp, 30)
    ensures loc.pollutants.no2 == 20 && loc.pollutants.so2 == 5 && loc.pollutants.co == 1.0
    ensures loc.pollutants.o3 == 40 && loc.humidity == 50
    ensures loc.lastUpdated == isoNow
    ensures loc.aqi != 0 && loc.pollutants.pm25 != 0 && loc.pollutants.pm10 != 0 && loc.temperature != 0
  {
    LocationData(
      SearchId(nowMs),
      areaName + LiveSearchSuffix,
      OrElse(parsed.aqi, 100),
      Pollutants(OrElse(parsed.pm25, 35), OrElse(parsed.pm10, 70), 20, 5, 1.0, 40),
      OrElse(parsed.temp, 30),
      50,
      isoNow)
  }

  /** `fetchAreaAqiViaSearch`. `search` is the search-grounded call for the
      area, `extract` the schema-constrained call given the first answer's
      text and the area, `jsonParse` is `JSON.parse` on the second answer's
      text; `nowMs` and `isoNow` are the two clock readings. Any error yields
      None: no record is built unless all three steps succeed. */
  function FetchAreaAqiViaSearch(
    areaName: string, nowMs: nat, isoNow: string,
    search: string -> Result<SearchResponse>,
    extract: (string, string) -> Result<string>,
    jsonParse: string -> Result<ParsedReading>): (r: Option<SearchResult>)
    ensures r.Some? <==>
      && search(areaName).Ok?
      && extract(search(areaName).value.text, areaName).Ok?
      && jsonParse(extract(search(areaName).value.text, areaName).value).Ok?
    ensures r.Some? ==>
      && r.value.sources == GroundingSources(search(areaName).value)
      && r.value.data == SynthesizeLocation(areaName,
           jsonParse(extract(search(areaName).value.text, areaName).value).value, nowMs, isoNow)
  {
    match search(areaName)
    case Err(_) => None
    case Ok(response) =>
      var sources := GroundingSources(response);
      match extract(response.text, areaName)
      case Err(_) => None
      case Ok(parseText) =>
        match jsonParse(parseText)
        case Err(_) => None
        case Ok(parsed) => Some(SearchResult(SynthesizeLocation(areaName, parsed, nowMs, isoNow), sources))
  }

  /** A record handed to the dashboard never carries a falsy AQI, PM or
      temperature reading. */
  lemma FetchedRecordComplete(
    areaName: string, nowMs: nat, isoNow: string,
    search: string -> Result<SearchResponse>,
    extract: (string, string) -> Result<string>,
    jsonParse: string -> Result<ParsedReading>)
    ensures var r := FetchAreaAqiViaSearch(areaName, nowMs, isoNow, search, extract, jsonParse);
      r.Some? ==> r.value.data.aqi != 0 && r.value.data.pollutants.pm25 != 0
                  && r.value.data.pollutants.pm10 != 0 && r.value.data.temperature != 0
                  && r.value.data.name == areaName + LiveSearchSuffix
  {
  }
}
