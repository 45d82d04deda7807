/** The dashboard (App.tsx): AQI banding, the pollutant bars, and the state
    behind search, selection and chat. */
module App {
  import opened Types
  import JsText
  import MockData
  import GeminiService
  import AQIMap

  /** What `getAQICategory` returns: the band and its two style classes. */
  datatype CategoryStyle = CategoryStyle(band: AQICategory, colorClass: string, textColor: string)

  /** `getAQICategory`. Each band is closed at its upper cut: 50 is Good, 51 Moderate. */
  function GetAQICategory(aqi: int): (style: CategoryStyle)
    ensures Severity(style.band) == CutsExceeded(BandCuts, aqi)
    ensures style.band == Good <==> aqi <= 50
    ensures style.band == Moderate <==> 50 < aqi <= 100
    ensures style.band == UnhealthyForSensitiveGroups <==> 100 < aqi <= 150
    ensures style.band == Unhealthy <==> 150 < aqi <= 200
    ensures style.band == VeryUnhealthy <==> 200 < aqi <= 300
    ensures style.band == Hazardous <==> 300 < aqi
  {
    BandIndex(aqi);
    if aqi <= 50 then CategoryStyle(Good, "aqi-gradient-good", "text-green-400")
    else if aqi <= 100 then CategoryStyle(Moderate, "aqi-gradient-moderate", "text-yellow-400")
    else if aqi <= 150 then CategoryStyle(UnhealthyForSensitiveGroups, "aqi-gradient-unhealthy-sens", "text-orange-400")
    else if aqi <= 200 then CategoryStyle(Unhealthy, "aqi-gradient-unhealthy", "text-red-400")
    else if aqi <= 300 then CategoryStyle(VeryUnhealthy, "aqi-gradient-very-unhealthy", "text-purple-400")
    else CategoryStyle(Hazardous, "aqi-gradient-hazardous", "text-red-700")
  }

  /** The label shown at each side of the band boundaries. */
  lemma CategoryLabelsAtCuts()
    ensures Label(GetAQICategory(50).band) == "Good" && Label(GetAQICategory(51).band) == "Moderate"
    ensures Label(GetAQICategory(100).band) == "Moderate"
    ensures Label(GetAQICategory(101).band) == "Unhealthy for Sensitive Groups"
    ensures Label(GetAQICategory(150).band) == "Unhealthy for Sensitive Groups"
    ensures Label(GetAQICategory(151).band) == "Unhealthy" && Label(GetAQICategory(200).band) == "Unhealthy"
    ensures Label(GetAQICategory(201).band) == "Very Unhealthy" && Label(GetAQICategory(300).band) == "Very Unhealthy"
    ensures Label(GetAQICategory(301).band) == "Hazardous"
  {
  }

  /** A higher AQI never lands in a milder band. */
  lemma {:induction false} CategoryMonotone(a: int, b: int)
    requires a <= b
    ensures Severity(GetAQICategory(a).band) <= Severity(GetAQICategory(b).band)
  {
    CutsExceededMonotone(BandCuts, a, b);
  }

  /** The map's dot colour and the dashboard's category put every AQI in the same band. */
  lemma ColorAgreesWithCategory(aqi: int)
    ensures AQIMap.GetAqiColor(aqi) == AQIMap.BandColors[Severity(GetAQICategory(aqi).band)]
  {
  }

  /** `PollutantRow`'s bar width: the reading as a percentage of the row's
      scale, capped at 100. */
  function BarPercentage(value: real, max: real): (pct: real)
    requires max > 0.0
    ensures pct <= 100.0
    ensures value <= max ==> pct == value / max * 100.0
    ensures value >= max ==> pct == 100.0
  {
    var ratio := value / max * 100.0;
    if ratio < 100.0 then ratio else 100.0
  }

  /** The six bars of the pollutant panel, with the scales the panel uses. */
  function PollutantBars(p: Pollutants): (bars: seq<real>)
    ensures |bars| == 6
    ensures forall i :: 0 <= i < 6 ==> bars[i] <= 100.0
    ensures bars[0] == BarPercentage(p.pm25 as real, 100.0) && bars[1] == BarPercentage(p.pm10 as real, 200.0)
    ensures bars[2] == BarPercentage(p.no2 as real, 50.0) && bars[3] == BarPercentage(p.so2 as real, 50.0)
    ensures bars[4] == BarPercentage(p.co, 5.0) && bars[5] == BarPercentage(p.o3 as real, 100.0)
  {
    [ BarPercentage(p.pm25 as real, 100.0),
      BarPercentage(p.pm10 as real, 200.0),
      BarPercentage(p.no2 as real, 50.0),
      BarPercentage(p.so2 as real, 50.0),
      BarPercentage(p.co, 5.0),
      BarPercentage(p.o3 as real, 100.0) ]
  }

  /** `result || 'Unable to generate insights.'` in `fetchInsights`. */
  function InsightsDisplay(result: string): (shown: string)
    ensures shown != ""
    ensures result != "" ==> shown == result
    ensures result == "" ==> shown == "Unable to generate insights."
  {
    if result != "" then result else "Unable to generate insights."
  }

  /** The search box's local test: the lower-cased name contains the
      lower-cased term. The term is not trimmed first. */
  predicate NameMatches(loc: LocationData, term: string)
  {
    JsText.Includes(JsText.ToLower(loc.name), JsText.ToLower(term))
  }

  /** The registry entry `HYDERABAD_LOCATIONS.find(...)` picks for a term. */
  function LocalMatch(registry: seq<LocationData>, term: string): (r: Option<nat>)
    ensures r.Some? ==> r.value < |registry| && NameMatches(registry[r.value], term)
    ensures r.Some? ==> forall j :: 0 <= j < r.value ==> !NameMatches(registry[j], term)
    ensures r.None? <==> forall j :: 0 <= j < |registry| ==> !NameMatches(registry[j], term)
  {
    JsText.Find(registry, (l: LocationData) => NameMatches(l, term))
  }

  /** A search id never names a registry entry, and highlights no marker. */
  lemma SearchIdIsFresh(nowMs: nat, loadedAt: string)
    ensures forall i :: 0 <= i < 5 ==>
      MockData.HyderabadLocations(loadedAt)[i].id != GeminiService.SearchId(nowMs)
    ensures forall m :: m in AQIMap.Markers ==> !AQIMap.IsSelected(m, GeminiService.SearchId(nowMs))
  {
    var id := GeminiService.SearchId(nowMs);
    MockData.RegistryIdsFixed(loadedAt);
    forall i | 0 <= i < 5
      ensures MockData.RegistryIds[i] != id
    {
      var r := MockData.RegistryIds[i];
      assert |r| >= 7 && (r[0] != 's' || r[2] != 'a');
      assert r[..7] != GeminiService.SearchIdPrefix;
    }
    assert forall i :: 0 <= i < 5 ==> AQIMap.Markers[i].id == MockData.RegistryIds[i];
  }

  datatype Role = User | Assistant

  datatype ChatMessage = ChatMessage(role: Role, text: string)

  /** The dashboard's state. The search and chat handlers are `async`: each
      is split at its `await` into a Begin and a Finish step, so that the
      state the service call sees and the state it returns to are both
      explicit; the Handle methods run the two steps back to back. */
  class Dashboard {
    /** Clock reading when the registry was loaded, and the registry itself. */
    const loadedAt: string
    const locations: seq<LocationData>

    var selectedLocation: LocationData
    var searchTerm: string
    var isSearching: bool
    var searchSources: seq<GeminiService.Citation>
    var chatInput: string
    var chatMessages: seq<ChatMessage>
    var isThinking: bool

    ghost predicate Valid()
    {
      locations == MockData.HyderabadLocations(loadedAt)
    }

    /** The initial state: the first registry entry selected, everything else empty. */
    constructor (loadedAt: string)
      ensures Valid() && this.loadedAt == loadedAt
      ensures selectedLocation == locations[0]
      ensures searchTerm == "" && !isSearching && searchSources == []
      ensures chatInput == "" && chatMessages == [] && !isThinking
    {
      this.loadedAt := loadedAt;
      locations := MockData.HyderabadLocations(loadedAt);
      selectedLocation := MockData.HyderabadLocations(loadedAt)[0];
      searchTerm := "";
      isSearching := false;
      searchSources := [];
      chatInput := "";
      chatMessages := [];
      isThinking := false;
    }

    /** The search box's `onChange`. */
    method EditSearchTerm(term: string)
      modifies this
      ensures searchTerm == term
      ensures selectedLocation == old(selectedLocation) && isSearching == old(isSearching)
      ensures searchSources == old(searchSources) && chatInput == old(chatInput)
      ensures chatMessages == old(chatMessages) && isThinking == old(isThinking)
    {
      searchTerm := term;
    }

    /** A registry button or a map marker: select the location and drop the
      previous search's citations. */
    method Select(loc: LocationData)
      modifies this
      ensures selectedLocation == loc && searchSources == []
      ensures searchTerm == old(searchTerm) && isSearching == old(isSearching)
      ensures chatInput == old(chatInput) && chatMessages == old(chatMessages)
      ensures isThinking == old(isThinking)
    {
      selectedLocation := loc;
      searchSources := [];
    }

    /** A click on a marker of the map selects the registry entry it shows. */
    method ClickMarker(m: AQIMap.Marker)
      requires Valid() && m in AQIMap.Markers
      modifies this
      ensures m.index < |locations| && selectedLocation == locations[m.index] && searchSources == []
      ensures selectedLocation.id == m.id
      ensures searchTerm == old(searchTerm) && isSearching == old(isSearching)
      ensures chatInput == old(chatInput) && chatMessages == old(chatMessages)
      ensures isThinking == old(isThinking)
    {
      AQIMap.MarkersMatchRegistry(loadedAt);
      Select(AQIMap.ClickTarget(m, locations));
    }

    /** `handleSearch` up to its `await`. A blank term changes nothing. A term
      some registry name contains selects the first such entry, clears the
      term and the citations, and calls no service. Otherwise the search
      starts and `request` is the term to resolve. The submit button is
      disabled while a search is in flight, so the form cannot be submitted
      then. */
    method BeginSearch() returns (request: Option<string>)
      requires Valid() && !isSearching
      modifies this
      ensures chatInput == old(chatInput) && chatMessages == old(chatMessages)
      ensures isThinking == old(isThinking)
      ensures JsText.AllWhitespace(old(searchTerm)) ==>
        && request == None
        && selectedLocation == old(selectedLocation) && searchTerm == old(searchTerm)
        && isSearching == old(isSearching) && searchSources == old(searchSources)
      ensures !JsText.AllWhitespace(old(searchTerm)) && LocalMatch(locations, old(searchTerm)).Some? ==>
        && request == None
        && selectedLocation == locations[LocalMatch(locations, old(searchTerm)).value]
        && searchTerm == "" && searchSources == [] && isSearching == old(isSearching)
      ensures !JsText.AllWhitespace(old(searchTerm)) && LocalMatch(locations, old(searchTerm)).None? ==>
        && request == Some(old(searchTerm))
        && isSearching
        && selectedLocation == old(selectedLocation) && searchTerm == old(searchTerm)
        && searchSources == old(searchSources)
    {
      JsText.TrimEmptyIffBlank(searchTerm);
      if JsText.Trim(searchTerm) == "" {
        return None;
      }
      var localMatch := LocalMatch(locations, searchTerm);
      if localMatch.Some? {
        selectedLocation := locations[localMatch.value];
        searchTerm := "";
        searchSources := [];
        return None;
      }
      isSearching := true;
      request := Some(searchTerm);
    }

    /** `handleSearch` after its `await`: the search ends; a result replaces
      the selection and the citations and clears the term, a failure (null)
      leaves them as they are. */
    method FinishSearch(result: Option<GeminiService.SearchResult>)
      modifies this
      ensures !isSearching
      ensures chatInput == old(chatInput) && chatMessages == old(chatMessages)
      ensures isThinking == old(isThinking)
      ensures result.Some? ==>
        selectedLocation == result.value.data && searchSources == result.value.sources && searchTerm == ""
      ensures result.None? ==>
        selectedLocation == old(selectedLocation) && searchSources == old(searchSources)
        && searchTerm == old(searchTerm)
    {
      isSearching := false;
      if result.Some? {
        selectedLocation := result.value.data;
        searchSources := result.value.sources;
        searchTerm := "";
      }
    }

    /** `handleSearch` with nothing happening during the `await`; `resolve`
      stands for `fetchAreaAqiViaSearch` and is consulted only when the term
      is not blank and matches no registry name. */
    method HandleSearch(resolve: string -> Option<GeminiService.SearchResult>)
      requires Valid() && !isSearching
      modifies this
      ensures chatInput == old(chatInput) && chatMessages == old(chatMessages)
      ensures isThinking == old(isThinking)
      ensures JsText.AllWhitespace(old(searchTerm)) ==>
        && selectedLocation == old(selectedLocation) && searchTerm == old(searchTerm)
        && isSearching == old(isSearching) && searchSources == old(searchSources)
      ensures !JsText.AllWhitespace(old(searchTerm)) && LocalMatch(locations, old(searchTerm)).Some? ==>
        && selectedLocation == locations[LocalMatch(locations, old(searchTerm)).value]
        && searchTerm == "" && searchSources == [] && isSearching == old(isSearching)
      ensures !JsText.AllWhitespace(old(searchTerm)) && LocalMatch(locations, old(searchTerm)).None? ==>
        && !isSearching
        && (resolve(old(searchTerm)).Some? ==>
              && selectedLocation == resolve(old(searchTerm)).value.data
              && searchSources == resolve(old(searchTerm)).value.sources
              && searchTerm == "")
        && (resolve(old(searchTerm)).None? ==>
              && selectedLocation == old(selectedLocation) && searchSources == old(searchSources)
              && searchTerm == old(searchTerm))
    {
      var request := BeginSearch();
      if request.Some? {
        FinishSearch(resolve(request.value));
      }
    }

    /** The chat box's `onChange`. */
    method EditChatInput(text: string)
      modifies this
      ensures chatInput == text
      ensures selectedLocation == old(selectedLocation) && searchTerm == old(searchTerm)
      ensures isSearching == old(isSearching) && searchSources == old(searchSources)
      ensures chatMessages == old(chatMessages) && isThinking == old(isThinking)
    {
      chatInput := text;
    }

    /** `handleSendMessage` up to its `await`. A blank input changes nothing;
      otherwise the input is cleared, the user's message is appended, and
      `message` is what goes to the assistant. */
    method BeginSendMessage() returns (message: Option<string>)
      modifies this
      ensures selectedLocation == old(selectedLocation) && searchTerm == old(searchTerm)
      ensures isSearching == old(isSearching) && searchSources == old(searchSources)
      ensures JsText.AllWhitespace(old(chatInput)) ==>
        && message == None
        && chatInput == old(chatInput) && chatMessages == old(chatMessages)
        && isThinking == old(isThinking)
      ensures !JsText.AllWhitespace(old(chatInput)) ==>
        && message == Some(old(chatInput))
        && chatInput == ""
        && chatMessages == old(chatMessages) + [ChatMessage(User, old(chatInput))]
        && isThinking
    {
      JsText.TrimEmptyIffBlank(chatInput);
      if JsText.Trim(chatInput) == "" {
        return None;
      }
      var userMsg := chatInput;
      chatInput := "";
      chatMessages := chatMessages + [ChatMessage(User, userMsg)];
      isThinking := true;
      message := Some(userMsg);
    }

    /** `handleSendMessage` after its `await`: the reply is appended. */
    method FinishSendMessage(response: string)
      modifies this
      ensures chatMessages == old(chatMessages) + [ChatMessage(Assistant, response)]
      ensures !isThinking
      ensures selectedLocation == old(selectedLocation) && searchTerm == old(searchTerm)
      ensures isSearching == old(isSearching) && searchSources == old(searchSources)
      ensures chatInput == old(chatInput)
    {
      chatMessages := chatMessages + [ChatMessage(Assistant, response)];
      isThinking := false;
    }

    /** `handleSendMessage` with nothing happening during the `await`: the
      transcript grows by the user's message and then the assistant's reply
      (or the apology), and nothing before them changes. */
    method HandleSendMessage(send: string -> Result<string>)
      modifies this
      ensures selectedLocation == old(selectedLocation) && searchTerm == old(searchTerm)
      ensures isSearching == old(isSearching) && searchSources == old(searchSources)
      ensures JsText.AllWhitespace(old(chatInput)) ==>
        chatInput == old(chatInput) && chatMessages == old(chatMessages) && isThinking == old(isThinking)
      ensures !JsText.AllWhitespace(old(chatInput)) ==>
        && chatInput == "" && !isThinking
        && |chatMessages| == |old(chatMessages)| + 2
        && chatMessages[..|old(chatMessages)|] == old(chatMessages)
        && chatMessages[|old(chatMessages)|] == ChatMessage(User, old(chatInput))
        && chatMessages[|old(chatMessages)| + 1]
             == ChatMessage(Assistant, GeminiService.ChatWithAQI(old(chatInput), [], send))
    {
      var message := BeginSendMessage();
      if message.Some? {
        var response := GeminiService.ChatWithAQI(message.value, [], send);
        FinishSendMessage(response);
      }
    }
  }
}
