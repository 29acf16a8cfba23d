/**
 * The five tools of the trip workflow. Each one reads the state, checks whether its
 * provider's credential is configured, and then either returns deterministic mock
 * content or calls the provider and strips the answer. An exception anywhere becomes a
 * result whose own field is empty and which carries a `warning`. A tool's result holds
 * its own field and, on that failure path only, `warning`.
 *
 * The environment variables and the two providers are parameters (`Env`): the text
 * generation provider is a function from the prompt it is asked to an outcome, the
 * search provider a function from the query string to an outcome.
 */
module Tools {
  import opened Outcomes
  import opened Text
  import opened TripState

  // ---------------------------------------------------------------- providers

  /**
   * The prompts the tools send to the text generation provider, reduced to the parts of
   * the state each one embeds; the surrounding prompt wording is not modelled.
   */
  datatype Prompt =
    | ItineraryPrompt(preferences: Value)
    | WeatherPrompt(destination: string, month: string)
    | ActivitiesPrompt(preferences: Value, itinerary: Value)
    | FoodPrompt(destination: string, budgetType: string)

  /** One organic search result; either of its keys may be missing. */
  datatype Organic = Organic(title: Option<string>, link: Option<string>)

  /** A search response; its "organic" key may be missing. */
  datatype SearchResponse = SearchResponse(organic: Option<seq<Organic>>)

  /**
   * What the tools read from outside: the GOOGLE_API_KEY and SERPER_API_KEY environment
   * variables, and the two providers, each of which returns content or raises.
   */
  datatype Env = Env(
    googleKey: Option<string>,
    serperKey: Option<string>,
    llm: Prompt -> Result<string>,
    search: string -> Result<SearchResponse>)

  /** The client the text generation tools construct. */
  datatype LlmClient = LlmClient(model: string, apiKey: string)

  const GEMINI_MODEL := "gemini-2.0-flash"
  const GOOGLE_KEY_PLACEHOLDER := "your_google_gemini_api_key_here"
  const GOOGLE_KEY_MISSING := "GOOGLE_API_KEY environment variable not set"

  /** Python truthiness of an optional string: present and non-empty. */
  predicate Truthy(s: Option<string>) {
    s.Some? && s.value != ""
  }

  /** Python's `s or default` for an optional string. */
  function OrElse(s: Option<string>, default: string): string {
    if Truthy(s) then s.value else default
  }

  /** The text generation tools call the provider only when the key is set, non-empty and not the placeholder. */
  predicate GeminiConfigured(key: Option<string>) {
    Truthy(key) && key.value != GOOGLE_KEY_PLACEHOLDER
  }

  /**
   * The text generation tools take their mock path exactly when the key is absent, empty
   * or the placeholder from the example environment file.
   */
  lemma GeminiMockPath(key: Option<string>)
    ensures !GeminiConfigured(key) <==> key.None? || key.value == "" || key.value == GOOGLE_KEY_PLACEHOLDER
  {
  }

  /** The links tool calls the search provider only when the key is set and not blank after stripping. */
  predicate SerperConfigured(key: Option<string>) {
    Truthy(key) && Strip(key.value) != ""
  }

  /** The links tool takes its mock path exactly when the key is absent or whitespace only; the placeholder is not checked. */
  lemma SerperMockPath(key: Option<string>)
    ensures !SerperConfigured(key) <==> key.None? || AllSpace(key.value)
  {
    if key.Some? {
      StripBlank(key.value);
    }
  }

  /** Constructs the text generation client; raises when the key is absent or empty. */
  function GetLlm(key: Option<string>): (r: Result<LlmClient>)
    ensures r.Err? <==> !Truthy(key)
    ensures r.Err? ==> r.message == GOOGLE_KEY_MISSING
    ensures r.Ok? ==> r.value.apiKey == key.value && r.value.model == GEMINI_MODEL
  {
    if !Truthy(key) then Err(GOOGLE_KEY_MISSING) else Ok(LlmClient(GEMINI_MODEL, key.value))
  }

  /** A configured key never makes the client construction raise: the tools' live paths never fail there. */
  lemma ConfiguredKeyBuildsClient(key: Option<string>)
    requires GeminiConfigured(key)
    ensures GetLlm(key) == Ok(LlmClient(GEMINI_MODEL, key.value))
  {
  }

  // ---------------------------------------------------------------- reading the state

  /** `state.get('preferences', {})`. */
  function RawPrefs(state: State): Value {
    Get(state, PREFERENCES, VPrefs(NO_PREFS))
  }

  const STR_HAS_NO_GET := "'str' object has no attribute 'get'"
  const LIST_HAS_NO_GET := "'list' object has no attribute 'get'"

  /** Calling `.get` on the preferences value: a dictionary answers, a string or a list raises. */
  function AsDict(v: Value): (r: Result<Prefs>)
    ensures v.VPrefs? <==> r.Ok?
    ensures r.Ok? ==> r.value == v.prefs
  {
    match v
    case VPrefs(p) => Ok(p)
    case VText(_) => Err(STR_HAS_NO_GET)
    case VLinks(_) => Err(LIST_HAS_NO_GET)
  }

  // ---------------------------------------------------------------- result shapes

  /** A tool's result after an exception: its own field set to `empty`, plus the message as `warning`. */
  function Failed(field: string, empty: Value, message: string): map<string, Value> {
    map[field := empty, WARNING := VText(message)]
  }

  /**
   * The shape every tool result has: its own field, and nothing else but, on the
   * failure path, a textual `warning` beside an empty own field.
   */
  predicate Shaped(r: map<string, Value>, field: string, empty: Value) {
    && field in r
    && (r.Keys == {field} || (r.Keys == {field, WARNING} && r[field] == empty && r[WARNING].VText?))
  }

  /**
   * Asks the text generation provider and returns the stripped answer under `field`;
   * a failure to build the client or a raising provider gives an empty field and a warning.
   */
  function AskLlm(env: Env, field: string, prompt: Prompt): (r: map<string, Value>)
    requires field != WARNING
    ensures Shaped(r, field, VText("")) && r[field].VText?
    ensures GeminiConfigured(env.googleKey) ==>
      match env.llm(prompt)
      case Ok(content) => r == map[field := VText(Strip(content))]
      case Err(e) => r == Failed(field, VText(""), e)
  {
    match GetLlm(env.googleKey)
    case Err(e) => Failed(field, VText(""), e)
    case Ok(_) =>
      match env.llm(prompt)
      case Ok(content) => map[field := VText(Strip(content))]
      case Err(e) => Failed(field, VText(""), e)
  }

  // ---------------------------------------------------------------- mock content

  /** Twelve spaces: the indentation before each mock template's closing quotes. */
  const CLOSING_INDENT := "            "

  /** A mock template as the source lays it out: a newline, the body, a newline and the closing indentation. */
  function Template(body: string): string {
    "\n" + body + "\n" + CLOSING_INDENT
  }

  /** Stripping a mock template gives its body back. */
  lemma StripTemplate(body: string)
    requires Framed(body)
    ensures Strip(Template(body)) == body
  {
    assert AllSpace("\n");
    assert AllSpace("\n" + CLOSING_INDENT);
    assert Template(body) == "\n" + body + ("\n" + CLOSING_INDENT);
    StripFramed("\n", body, "\n" + CLOSING_INDENT);
  }

  const UNKNOWN := "Unknown"
  const DEFAULT_BUDGET := "mid-range"

  const ITINERARY_DAY_1 :=
    "\n\n## Day 1: Arrival & Orientation\n- **Morning:** Arrive in "
  const ITINERARY_DAYS_2_3 :=
    " accommodation\n- **Afternoon:** Explore the city center and get oriented\n"
    + "- **Evening:** Enjoy local cuisine at a recommended restaurant\n\n"
    + "## Day 2: Cultural Exploration\n- **Morning:** Visit main cultural attractions\n"
    + "- **Afternoon:** Local market exploration\n- **Evening:** Traditional dinner experience\n\n"
    + "## Day 3: Adventure & Relaxation\n- **Morning:** Outdoor activities or nature exploration\n"
    + "- **Afternoon:** Spa or relaxation time\n- **Evening:** Sunset viewing and farewell dinner\n\n"
    + "*This is a sample itinerary. Add your actual Google API key to get AI-generated personalized recommendations.*"

  /** The body of the mock itinerary: it names the destination, the month and the budget tier. */
  function ItineraryBody(destination: string, month: string, budget: string): (r: string)
    ensures Framed(r)
    ensures Contains(r, destination) && Contains(r, month) && Contains(r, budget)
  {
    var parts := ["# ", destination, " Travel Itinerary - ", month, ITINERARY_DAY_1,
                  destination, ", check into your ", budget, ITINERARY_DAYS_2_3];
    ConcatFramed(parts);
    ConcatContains(parts, 1);
    ConcatContains(parts, 3);
    ConcatContains(parts, 7);
    Concat(parts)
  }

  const WEATHER_DETAILS :=
    "\n\n## Temperature\n- Average High: 22째C (72째F)\n- Average Low: 15째C (59째F)\n\n"
    + "## Precipitation\n- Rainfall: Moderate\n- Humidity: 65%\n\n"
    + "## Travel Advice\n- Pack light layers for variable temperatures\n"
    + "- Bring an umbrella for occasional showers\n"
    + "- Best time for outdoor activities: Morning and late afternoon\n\n"
    + "*This is sample weather data. Add your actual Google API key for real-time weather information.*"

  /** The body of the mock weather forecast: it names the destination and the month. */
  function WeatherBody(destination: string, month: string): (r: string)
    ensures Framed(r)
    ensures Contains(r, destination) && Contains(r, month)
  {
    var parts := ["# Weather Forecast for ", destination, " - ", month, WEATHER_DETAILS];
    ConcatFramed(parts);
    ConcatContains(parts, 1);
    ConcatContains(parts, 3);
    Concat(parts)
  }

  const ACTIVITY_DAYS :=
    "\n\n## Day 1 Activities\n- Visit the main cultural landmarks\n"
    + "- Explore local markets and shopping districts\n- Try traditional local cuisine\n\n"
    + "## Day 2 Activities\n- Take a guided tour of historical sites\n"
    + "- Participate in local cultural workshops\n- Enjoy evening entertainment and nightlife\n\n"
    + "## Day 3 Activities\n- Outdoor adventure activities\n- Relaxation and wellness experiences\n"
    + "- Sunset viewing at scenic locations\n\n## Special Interests: "
  const ACTIVITY_NOTES :=
    "\n- Customized activities based on your interests\n- Local expert recommendations\n"
    + "- Hidden gems and off-the-beaten-path experiences\n\n"
    + "*This is sample activity data. Add your actual Google API key for personalized recommendations.*"

  /** The body of the mock activity suggestions: it names the destination and every interest. */
  function ActivitiesBody(destination: string, interests: seq<string>): (r: string)
    ensures Framed(r)
    ensures Contains(r, destination)
    ensures forall i :: 0 <= i < |interests| ==> Contains(r, interests[i])
  {
    var joined := Join(interests, ", ");
    var parts := ["# Recommended Activities for ", destination, ACTIVITY_DAYS, joined, ACTIVITY_NOTES];
    ConcatFramed(parts);
    ConcatContains(parts, 1);
    ConcatContains(parts, 3);
    InterestsListed(parts, interests);
    Concat(parts)
  }

  /** Each interest occurs in the comma-separated list, hence in the concatenation around it. */
  lemma InterestsListed(parts: seq<string>, interests: seq<string>)
    requires |parts| == 5 && parts[3] == Join(interests, ", ")
    ensures forall i :: 0 <= i < |interests| ==> Contains(Concat(parts), interests[i])
  {
    forall i | 0 <= i < |interests|
      ensures Contains(Concat(parts), interests[i])
    {
      JoinContains(interests, ", ", i);
      ConcatContains(parts, 3);
      ContainedTransitive(Concat(parts), parts[3], interests[i]);
    }
  }

  const FOOD_DISHES :=
    "\n\n## Food & Dining\n### Popular Local Dishes\n- Traditional signature dishes\n"
    + "- Street food favorites\n- Regional specialties\n\n"
    + "### Recommended Dining Options\n- Fine dining restaurants for "
  const FOOD_CULTURE :=
    " budget\n- Local family-owned establishments\n- Popular food markets and stalls\n\n"
    + "## Culture & Etiquette\n### Cultural Norms\n- Greeting customs and traditions\n"
    + "- Dress code expectations\n- Social interaction guidelines\n\n"
    + "### Traveler Tips\n- Language basics and useful phrases\n- Tipping customs\n"
    + "- Photography etiquette\n- Respectful behavior guidelines\n\n"
    + "*This is sample cultural information. Add your actual Google API key for detailed local insights.*"

  /** The body of the mock food and culture guide: it names the destination and the budget tier. */
  function FoodBody(destination: string, budgetType: string): (r: string)
    ensures Framed(r)
    ensures Contains(r, destination) && Contains(r, budgetType)
  {
    var parts := ["# Food & Culture Guide for ", destination, FOOD_DISHES, budgetType, FOOD_CULTURE];
    ConcatFramed(parts);
    ConcatContains(parts, 1);
    ConcatContains(parts, 3);
    Concat(parts)
  }

  const MOCK_LINK_TITLES: seq<string> := [
    "Complete Travel Guide to ", "Best Time to Visit ", "Local Culture and Customs in ",
    "Food and Dining in ", "Transportation Guide for "]
  const MOCK_LINK_URLS: seq<string> := [
    "https://example.com/travel-guide", "https://example.com/best-time",
    "https://example.com/culture", "https://example.com/food",
    "https://example.com/transportation"]

  /** The five mock links: fixed URLs, and titles that end with the destination. */
  function MockLinks(destination: string): (r: seq<LinkRecord>)
    ensures |r| == 5
    ensures forall i :: 0 <= i < 5 ==> r[i].Keys == {"title", "link"} && r[i]["link"] == MOCK_LINK_URLS[i]
    ensures forall i :: 0 <= i < 5 ==> Contains(r[i]["title"], destination)
  {
    var links := seq(5, i requires 0 <= i < 5 =>
      map["title" := MOCK_LINK_TITLES[i] + destination, "link" := MOCK_LINK_URLS[i]]);
    MockTitlesNameDestination(destination);
    links
  }

  lemma MockTitlesNameDestination(destination: string)
    ensures forall i :: 0 <= i < 5 ==> Contains(MOCK_LINK_TITLES[i] + destination, destination)
  {
    assert OccursAt(destination, destination, 0);
    forall i | 0 <= i < 5
      ensures Contains(MOCK_LINK_TITLES[i] + destination, destination)
    {
      ContainsAfter(MOCK_LINK_TITLES[i], destination, destination);
    }
  }

  // ---------------------------------------------------------------- live links

  const QUERY_PREFIX := "Travel tips and guides for "
  const QUERY_MONTH := " in "
  const DEFAULT_QUERY_DESTINATION := "your destination"
  const DEFAULT_QUERY_MONTH := "your travel month"
  const NO_TITLE := "No title"
  const MAX_LINKS := 5

  /**
   * The search query: the fixed prefix, then the destination (or "your destination"
   * when it is missing or empty), then " in ", then the month (or "your travel month").
   */
  function SearchQuery(p: Prefs): (q: string)
    ensures |q| == |QUERY_PREFIX| + |QueryDestination(p)| + |QUERY_MONTH| + |QueryMonth(p)|
    ensures q[..|QUERY_PREFIX|] == QUERY_PREFIX
    ensures q[|QUERY_PREFIX|..|QUERY_PREFIX| + |QueryDestination(p)|] == QueryDestination(p)
    ensures q[|QUERY_PREFIX| + |QueryDestination(p)|..|q| - |QueryMonth(p)|] == QUERY_MONTH
    ensures q[|q| - |QueryMonth(p)|..] == QueryMonth(p)
  {
    QUERY_PREFIX + QueryDestination(p) + QUERY_MONTH + QueryMonth(p)
  }

  /** `preferences.get('destination') or "your destination"`. */
  function QueryDestination(p: Prefs): string {
    OrElse(p.destination, DEFAULT_QUERY_DESTINATION)
  }

  /** `preferences.get('month') or "your travel month"`. */
  function QueryMonth(p: Prefs): string {
    OrElse(p.month, DEFAULT_QUERY_MONTH)
  }

  /** The link record built from one organic result. */
  function LinkOf(o: Organic): (r: LinkRecord)
    ensures r.Keys == {"title", "link"}
    ensures r["title"] == (if o.title.Some? then o.title.value else NO_TITLE)
    ensures r["link"] == (if o.link.Some? then o.link.value else "")
  {
    map["title" := o.title.GetOr(NO_TITLE), "link" := o.link.GetOr("")]
  }

  /**
   * The live links: the first at most five organic results, in their order, a missing
   * title becoming "No title" and a missing link "".
   */
  function LiveLinks(organic: seq<Organic>): (r: seq<LinkRecord>)
    ensures |r| == if |organic| < MAX_LINKS then |organic| else MAX_LINKS
    ensures forall i :: 0 <= i < |r| ==> r[i].Keys == {"title", "link"}
    ensures forall i :: 0 <= i < |r| ==>
      && (organic[i].title.Some? ==> r[i]["title"] == organic[i].title.value)
      && (organic[i].title.None? ==> r[i]["title"] == NO_TITLE)
      && (organic[i].link.Some? ==> r[i]["link"] == organic[i].link.value)
      && (organic[i].link.None? ==> r[i]["link"] == "")
  {
    var top := if |organic| < MAX_LINKS then organic else organic[..MAX_LINKS];
    seq(|top|, i requires 0 <= i < |top| => LinkOf(top[i]))
  }

  const LINKS_FAILURE_PREFIX := "Failed to fetch links: "

  // ---------------------------------------------------------------- the tools

  /** `generate_itinerary`. */
  function GenerateItinerary(state: State, env: Env): (r: map<string, Value>)
    ensures Shaped(r, ITINERARY, VText("")) && r[ITINERARY].VText?
    ensures !GeminiConfigured(env.googleKey) ==>
      match AsDict(RawPrefs(state))
      case Ok(p) => r == map[ITINERARY := VText(ItineraryBody(
        p.destination.GetOr(UNKNOWN), p.month.GetOr(UNKNOWN), p.budgetType.GetOr(DEFAULT_BUDGET)))]
      case Err(e) => r == Failed(ITINERARY, VText(""), e)
    ensures GeminiConfigured(env.googleKey) ==>
      match env.llm(ItineraryPrompt(RawPrefs(state)))
      case Ok(content) => r == map[ITINERARY := VText(Strip(content))]
      case Err(e) => r == Failed(ITINERARY, VText(""), e)
  {
    var preferences := RawPrefs(state);
    if !GeminiConfigured(env.googleKey) then
      match AsDict(preferences)
      case Err(e) => Failed(ITINERARY, VText(""), e)
      case Ok(p) =>
        var body := ItineraryBody(
          p.destination.GetOr(UNKNOWN), p.month.GetOr(UNKNOWN), p.budgetType.GetOr(DEFAULT_BUDGET));
        StripTemplate(body);
        map[ITINERARY := VText(Strip(Template(body)))]
    else
      AskLlm(env, ITINERARY, ItineraryPrompt(preferences))
  }

  /** `weather_forecaster`: the preferences are read before the key is checked. */
  function WeatherForecaster(state: State, env: Env): (r: map<string, Value>)
    ensures Shaped(r, WEATHER_FORECAST, VText("")) && r[WEATHER_FORECAST].VText?
    ensures match AsDict(RawPrefs(state))
      case Err(e) => r == Failed(WEATHER_FORECAST, VText(""), e)
      case Ok(p) =>
        var destination := p.destination.GetOr("");
        var month := p.month.GetOr("");
        if !GeminiConfigured(env.googleKey) then
          r == map[WEATHER_FORECAST := VText(WeatherBody(destination, month))]
        else
          match env.llm(WeatherPrompt(destination, month))
          case Ok(content) => r == map[WEATHER_FORECAST := VText(Strip(content))]
          case Err(e) => r == Failed(WEATHER_FORECAST, VText(""), e)
  {
    match AsDict(RawPrefs(state))
    case Err(e) => Failed(WEATHER_FORECAST, VText(""), e)
    case Ok(p) =>
      var destination := p.destination.GetOr("");
      var month := p.month.GetOr("");
      if !GeminiConfigured(env.googleKey) then
        var body := WeatherBody(destination, month);
        StripTemplate(body);
        map[WEATHER_FORECAST := VText(Strip(Template(body)))]
      else
        AskLlm(env, WEATHER_FORECAST, WeatherPrompt(destination, month))
  }

  /** `recommend_activities`: the only tool that reads an earlier step's output, the itinerary. */
  function RecommendActivities(state: State, env: Env): (r: map<string, Value>)
    ensures Shaped(r, ACTIVITY_SUGGESTIONS, VText("")) && r[ACTIVITY_SUGGESTIONS].VText?
    ensures !GeminiConfigured(env.googleKey) ==>
      match AsDict(RawPrefs(state))
      case Ok(p) => r == map[ACTIVITY_SUGGESTIONS := VText(ActivitiesBody(
        p.destination.GetOr(UNKNOWN), p.interests.GetOr([])))]
      case Err(e) => r == Failed(ACTIVITY_SUGGESTIONS, VText(""), e)
    ensures GeminiConfigured(env.googleKey) ==>
      match env.llm(ActivitiesPrompt(RawPrefs(state), Get(state, ITINERARY, VText(""))))
      case Ok(content) => r == map[ACTIVITY_SUGGESTIONS := VText(Strip(content))]
      case Err(e) => r == Failed(ACTIVITY_SUGGESTIONS, VText(""), e)
  {
    var preferences := RawPrefs(state);
    var itinerary := Get(state, ITINERARY, VText(""));
    if !GeminiConfigured(env.googleKey) then
      match AsDict(preferences)
      case Err(e) => Failed(ACTIVITY_SUGGESTIONS, VText(""), e)
      case Ok(p) =>
        var body := ActivitiesBody(p.destination.GetOr(UNKNOWN), p.interests.GetOr([]));
        StripTemplate(body);
        map[ACTIVITY_SUGGESTIONS := VText(Strip(Template(body)))]
    else
      AskLlm(env, ACTIVITY_SUGGESTIONS, ActivitiesPrompt(preferences, itinerary))
  }

  /** The links tool's result after an exception: no links, and the prefixed message as `warning`. */
  function LinksFailed(message: string): map<string, Value> {
    Failed(USEFUL_LINKS, VLinks([]), LINKS_FAILURE_PREFIX + message)
  }

  /** `fetch_useful_links`. */
  function FetchUsefulLinks(state: State, env: Env): (r: map<string, Value>)
    ensures Shaped(r, USEFUL_LINKS, VLinks([]))
    ensures r[USEFUL_LINKS].VLinks? && |r[USEFUL_LINKS].links| <= MAX_LINKS
    ensures !SerperConfigured(env.serperKey) ==>
      match AsDict(RawPrefs(state))
      case Ok(p) => r == map[USEFUL_LINKS := VLinks(MockLinks(p.destination.GetOr(UNKNOWN)))]
      case Err(e) => r == LinksFailed(e)
    ensures SerperConfigured(env.serperKey) ==>
      match AsDict(RawPrefs(state))
      case Err(e) => r == LinksFailed(e)
      case Ok(p) =>
        match env.search(SearchQuery(p))
        case Ok(response) => r == map[USEFUL_LINKS := VLinks(LiveLinks(response.organic.GetOr([])))]
        case Err(e) => r == LinksFailed(e)
  {
    if !SerperConfigured(env.serperKey) then
      match AsDict(RawPrefs(state))
      case Err(e) => LinksFailed(e)
      case Ok(p) => map[USEFUL_LINKS := VLinks(MockLinks(p.destination.GetOr(UNKNOWN)))]
    else
      match AsDict(RawPrefs(state))
      case Err(e) => LinksFailed(e)
      case Ok(p) =>
        match env.search(SearchQuery(p))
        case Err(e) => LinksFailed(e)
        case Ok(response) => map[USEFUL_LINKS := VLinks(LiveLinks(response.organic.GetOr([])))]
  }

  /** `food_culture_recommender`: the preferences are read before the key is checked. */
  function FoodCultureRecommender(state: State, env: Env): (r: map<string, Value>)
    ensures Shaped(r, FOOD_CULTURE_INFO, VText("")) && r[FOOD_CULTURE_INFO].VText?
    ensures match AsDict(RawPrefs(state))
      case Err(e) => r == Failed(FOOD_CULTURE_INFO, VText(""), e)
      case Ok(p) =>
        var destination := p.destination.GetOr("");
        var budgetType := p.budgetType.GetOr(DEFAULT_BUDGET);
        if !GeminiConfigured(env.googleKey) then
          r == map[FOOD_CULTURE_INFO := VText(FoodBody(destination, budgetType))]
        else
          match env.llm(FoodPrompt(destination, budgetType))
          case Ok(content) => r == map[FOOD_CULTURE_INFO := VText(Strip(content))]
          case Err(e) => r == Failed(FOOD_CULTURE_INFO, VText(""), e)
  {
    match AsDict(RawPrefs(state))
    case Err(e) => Failed(FOOD_CULTURE_INFO, VText(""), e)
    case Ok(p) =>
      var destination := p.destination.GetOr("");
      var budgetType := p.budgetType.GetOr(DEFAULT_BUDGET);
      if !GeminiConfigured(env.googleKey) then
        var body := FoodBody(destination, budgetType);
        StripTemplate(body);
        map[FOOD_CULTURE_INFO := VText(Strip(Template(body)))]
      else
        AskLlm(env, FOOD_CULTURE_INFO, FoodPrompt(destination, budgetType))
  }

  /** Without a usable Serper key, a dictionary of preferences naming a destination gives the five mock links for it. */
  lemma MockLinksFor(state: State, env: Env, p: Prefs, destination: string)
    requires !SerperConfigured(env.serperKey)
    requires RawPrefs(state) == VPrefs(p) && p.destination == Some(destination)
    ensures FetchUsefulLinks(state, env) == map[USEFUL_LINKS := VLinks(MockLinks(destination))]
  {
  }

  // ---------------------------------------------------------------- what the tools read

  /** The itinerary tool reads nothing of the state but the preferences. */
  lemma ItineraryReads(s1: State, s2: State, env: Env)
    requires RawPrefs(s1) == RawPrefs(s2)
    ensures GenerateItinerary(s1, env) == GenerateItinerary(s2, env)
  {
  }

  /** The weather tool reads nothing of the state but the preferences. */
  lemma WeatherReads(s1: State, s2: State, env: Env)
    requires RawPrefs(s1) == RawPrefs(s2)
    ensures WeatherForecaster(s1, env) == WeatherForecaster(s2, env)
  {
  }

  /** The activities tool reads nothing of the state but the preferences and the itinerary. */
  lemma ActivitiesReads(s1: State, s2: State, env: Env)
    requires RawPrefs(s1) == RawPrefs(s2)
    requires Get(s1, ITINERARY, VText("")) == Get(s2, ITINERARY, VText(""))
    ensures RecommendActivities(s1, env) == RecommendActivities(s2, env)
  {
  }

  /** The links tool reads nothing of the state but the preferences. */
  lemma LinksReads(s1: State, s2: State, env: Env)
    requires RawPrefs(s1) == RawPrefs(s2)
    ensures FetchUsefulLinks(s1, env) == FetchUsefulLinks(s2, env)
  {
  }

  /** The food and culture tool reads nothing of the state but the preferences. */
  lemma FoodReads(s1: State, s2: State, env: Env)
    requires RawPrefs(s1) == RawPrefs(s2)
    ensures FoodCultureRecommender(s1, env) == FoodCultureRecommender(s2, env)
  {
  }
}
