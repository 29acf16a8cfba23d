/**
 * The trip route: it builds the agent's initial state from the request, runs the
 * agent, and maps the agent's result onto a response, with a fixed default for each
 * output field the result lacks. An agent that raises, an agent that returns nothing,
 * and a result the response record rejects each become an HTTP 500 error. Beside it,
 * the configuration report says whether both credentials are set.
 *
 * The agent is a parameter (`Agent`); `PlanTrip` plugs in the workflow of `TripAgent`.
 */
module TripRoutes {
  import opened Outcomes
  import opened TripState
  import opened TripSchema
  import Text
  import Tools
  import TripAgent

  // ---------------------------------------------------------------- the initial state

  /**
   * The state the route hands to the agent: the request's five preferences (the travel
   * style under the key "travelStyle"), every text output empty and no links.
   */
  function InitialState(request: TripRequest): (s: State)
    ensures s.Keys == TRIP_FIELDS
    ensures Tools.RawPrefs(s) == VPrefs(PrefsOf(request.preferences))
    ensures HasTripFields(s) && OutputsWellTyped(s) && WARNING !in s
    ensures forall f :: f in TEXT_FIELDS ==> s[f] == VText("")
    ensures s[USEFUL_LINKS] == VLinks([])
  {
    map[
      PREFERENCES := VPrefs(PrefsOf(request.preferences)),
      ITINERARY := VText(""),
      WEATHER_FORECAST := VText(""),
      ACTIVITY_SUGGESTIONS := VText(""),
      USEFUL_LINKS := VLinks([]),
      FOOD_CULTURE_INFO := VText("")]
  }

  /** The preferences dictionary the route builds: all five keys set from the request. */
  function PrefsOf(p: TripPreferences): Prefs {
    Prefs(Some(p.destination), Some(p.month), Some(p.budgetType), Some(p.travelStyle), Some(p.interests))
  }

  /** Reads a request back from the preferences of a state, when all five are present as a dictionary. */
  function RequestOf(s: State): Option<TripRequest> {
    match Tools.AsDict(Tools.RawPrefs(s))
    case Err(_) => None
    case Ok(p) =>
      if p.destination.Some? && p.month.Some? && p.budgetType.Some? && p.travelStyle.Some? && p.interests.Some?
      then Some(TripRequest(TripPreferences(
        p.destination.value, p.month.value, p.budgetType.value, p.travelStyle.value, p.interests.value)))
      else None
  }

  /** The initial state loses nothing of the request: it can be read back from the state. */
  lemma InitialStateRoundTrip(request: TripRequest)
    ensures RequestOf(InitialState(request)) == Some(request)
  {
  }

  // ---------------------------------------------------------------- the response

  const NO_ITINERARY := "No itinerary generated"
  const NO_WEATHER := "No weather forecast available"
  const NO_ACTIVITIES := "No activity suggestions available"
  const NO_FOOD := "No food/culture info available"
  const SUCCESS_MESSAGE := "Trip plan generated successfully!"

  /**
   * The message the response record gives when a field has the wrong type. The record's
   * own validation text is not modelled; this stands in for it.
   */
  const INVALID_RESPONSE := "validation error for TripResponse"

  /**
   * The default the route uses for an output field the result lacks: a non-empty notice
   * for each text field, so a defaulted field is never mistaken for a failed step's empty
   * text, and the empty list for the links.
   */
  function DefaultFor(f: string): (r: Value)
    ensures f in TEXT_FIELDS ==> r.VText? && r.text != ""
    ensures f !in TEXT_FIELDS ==> r == VLinks([])
  {
    if f == ITINERARY then VText(NO_ITINERARY)
    else if f == WEATHER_FORECAST then VText(NO_WEATHER)
    else if f == ACTIVITY_SUGGESTIONS then VText(NO_ACTIVITIES)
    else if f == FOOD_CULTURE_INFO then VText(NO_FOOD)
    else VLinks([])
  }

  /** `result.get(f, default)` for an output field. */
  function FieldOrDefault(result: State, f: string): Value {
    Get(result, f, DefaultFor(f))
  }

  /**
   * The output fields the result lacks, in the order itinerary, weather, activities,
   * links, food. The route only logs them.
   */
  function MissingKeys(result: State): (missing: seq<string>)
    ensures forall k :: k in missing <==> k in OUTPUT_FIELDS && k !in result
    ensures missing == [] <==> forall k :: k in OUTPUT_FIELDS ==> k in result
  {
    Missing(OUTPUT_FIELDS, result)
  }

  /** The keys among `expected` that `result` lacks, in the order of `expected`. */
  function Missing(expected: seq<string>, result: State): (missing: seq<string>)
    ensures forall k :: k in missing <==> k in expected && k !in result
    ensures missing == [] <==> forall k :: k in expected ==> k in result
    ensures |missing| <= |expected|
  {
    if expected == [] then []
    else if expected[0] in result then Missing(expected[1..], result)
    else [expected[0]] + Missing(expected[1..], result)
  }

  /** Every value the response record is built from has the field's type: text, or a list of links. */
  predicate ResponseTyped(result: State) {
    && (forall f :: f in TEXT_FIELDS ==> FieldOrDefault(result, f).VText?)
    && FieldOrDefault(result, USEFUL_LINKS).VLinks?
  }

  /**
   * Builds the response from the agent's result: each field holds the result's value
   * when present, empty text included, and the field's default when absent; the message
   * is the fixed success message. A value of the wrong type is rejected.
   */
  function ToResponse(result: State): (r: Result<TripResponse>)
    ensures r.Ok? <==> ResponseTyped(result)
    ensures r.Err? ==> r.message == INVALID_RESPONSE
    ensures r.Ok? ==>
      && VText(r.value.itinerary) == FieldOrDefault(result, ITINERARY)
      && VText(r.value.weatherForecast) == FieldOrDefault(result, WEATHER_FORECAST)
      && VText(r.value.activitySuggestions) == FieldOrDefault(result, ACTIVITY_SUGGESTIONS)
      && VLinks(r.value.usefulLinks) == FieldOrDefault(result, USEFUL_LINKS)
      && VText(r.value.foodCultureInfo) == FieldOrDefault(result, FOOD_CULTURE_INFO)
      && r.value.status == SUCCESS_STATUS
      && r.value.message == Some(SUCCESS_MESSAGE)
  {
    if !ResponseTyped(result) then Err(INVALID_RESPONSE)
    else
      Ok(NewTripResponse(
        FieldOrDefault(result, ITINERARY).text,
        FieldOrDefault(result, WEATHER_FORECAST).text,
        FieldOrDefault(result, ACTIVITY_SUGGESTIONS).text,
        FieldOrDefault(result, USEFUL_LINKS).links,
        FieldOrDefault(result, FOOD_CULTURE_INFO).text,
        None,
        Some(SUCCESS_MESSAGE)))
  }

  /** A missing key only falls back to its default: it is listed, and the response carries the default text. */
  lemma MissingKeysGetDefaults(result: State, r: TripResponse)
    requires ToResponse(result) == Ok(r)
    ensures ITINERARY in MissingKeys(result) ==> r.itinerary == NO_ITINERARY
    ensures WEATHER_FORECAST in MissingKeys(result) ==> r.weatherForecast == NO_WEATHER
    ensures ACTIVITY_SUGGESTIONS in MissingKeys(result) ==> r.activitySuggestions == NO_ACTIVITIES
    ensures USEFUL_LINKS in MissingKeys(result) ==> r.usefulLinks == []
    ensures FOOD_CULTURE_INFO in MissingKeys(result) ==> r.foodCultureInfo == NO_FOOD
  {
  }

  /** A result whose output fields have their declared types always gives a response, whatever keys it lacks. */
  lemma TypedResultResponds(result: State)
    requires OutputsWellTyped(result)
    ensures ToResponse(result).Ok?
  {
  }

  // ---------------------------------------------------------------- the route

  const INTERNAL_SERVER_ERROR := 500
  const AGENT_FAILED_PREFIX := "Agent execution failed: "
  const AGENT_RETURNED_NONE :=
    "Agent returned None result. Check agent configuration and tool implementations."
  const PLAN_FAILED_PREFIX := "Failed to generate trip plan: "

  /** What running the agent gives: it raised with a message, returned `None`, or returned a state. */
  datatype AgentOutcome = Raised(message: string) | ReturnedNone | Returned(result: State)

  type Agent = State -> AgentOutcome

  datatype HttpError = HttpError(statusCode: int, detail: string)

  /** The route's outcome: a response, or the HTTP error it raises. */
  datatype PlanOutcome = Planned(response: TripResponse) | Rejected(error: HttpError)

  /**
   * `generate_trip_plan`: runs the agent on the initial state. Each failure is a 500
   * error: an agent that raised is reported with its message, an agent that returned
   * `None` with a fixed message, and a result the response rejects with the generic
   * prefix. An agent failure is reported once, not wrapped again in the generic prefix.
   */
  function GenerateTripPlan(request: TripRequest, agent: Agent): (r: PlanOutcome)
    ensures r.Rejected? ==> r.error.statusCode == INTERNAL_SERVER_ERROR
    ensures agent(InitialState(request)).Raised? ==>
      r == Rejected(HttpError(INTERNAL_SERVER_ERROR, AGENT_FAILED_PREFIX + agent(InitialState(request)).message))
    ensures agent(InitialState(request)).ReturnedNone? ==>
      r == Rejected(HttpError(INTERNAL_SERVER_ERROR, AGENT_RETURNED_NONE))
    ensures agent(InitialState(request)).Returned? ==>
      match ToResponse(agent(InitialState(request)).result)
      case Ok(response) => r == Planned(response)
      case Err(e) => r == Rejected(HttpError(INTERNAL_SERVER_ERROR, PLAN_FAILED_PREFIX + e))
  {
    match agent(InitialState(request))
    case Raised(message) => Rejected(HttpError(INTERNAL_SERVER_ERROR, AGENT_FAILED_PREFIX + message))
    case ReturnedNone => Rejected(HttpError(INTERNAL_SERVER_ERROR, AGENT_RETURNED_NONE))
    case Returned(result) =>
      match ToResponse(result)
      case Ok(response) => Planned(response)
      case Err(e) => Rejected(HttpError(INTERNAL_SERVER_ERROR, PLAN_FAILED_PREFIX + e))
  }

  /** The agent that runs the compiled graph over the given tools; it always returns a state. */
  function GraphAgent(tools: TripAgent.Toolset): Agent {
    s => Returned(TripAgent.RunGraph(s, tools))
  }

  /**
   * The route as the application serves it: the workflow with the given environment and
   * providers. Whatever the credentials and whatever the providers answer, it plans, and
   * the plan carries exactly the agent's outputs.
   */
  function PlanTrip(request: TripRequest, env: Tools.Env): (r: PlanOutcome)
    ensures r.Planned? && Carries(r.response, TripAgent.RunAgent(InitialState(request), env))
  {
    TripAgent.RegisteredShaped(env);
    GraphPlanned(request, TripAgent.Registered(env));
    GenerateTripPlan(request, GraphAgent(TripAgent.Registered(env)))
  }

  /**
   * The response carries the result's own values for all five output fields, and the
   * success message.
   */
  predicate Carries(response: TripResponse, result: State) {
    && OUTPUT_KEYS <= result.Keys
    && VText(response.itinerary) == result[ITINERARY]
    && VText(response.weatherForecast) == result[WEATHER_FORECAST]
    && VText(response.activitySuggestions) == result[ACTIVITY_SUGGESTIONS]
    && VLinks(response.usefulLinks) == result[USEFUL_LINKS]
    && VText(response.foodCultureInfo) == result[FOOD_CULTURE_INFO]
    && response.message == Some(SUCCESS_MESSAGE)
  }

  /** A result holding every output field, each of its declared type, lists no missing key and gives exactly its values. */
  lemma CompleteResultResponds(result: State)
    requires OUTPUT_KEYS <= result.Keys
    requires OutputsWellTyped(result)
    ensures MissingKeys(result) == []
    ensures ToResponse(result).Ok? && Carries(ToResponse(result).value, result)
  {
  }

  /**
   * With tools that keep their result shape, the route always answers with a plan whose
   * fields are exactly the graph's outputs: no field falls back to its default, and no
   * tool failure turns into an error.
   */
  lemma GraphPlanned(request: TripRequest, tools: TripAgent.Toolset)
    requires TripAgent.WellShaped(tools)
    ensures var result := TripAgent.RunGraph(InitialState(request), tools);
      var plan := GenerateTripPlan(request, GraphAgent(tools));
      MissingKeys(result) == [] && plan.Planned? && Carries(plan.response, result)
  {
    var start := InitialState(request);
    var result := TripAgent.RunGraph(start, tools);
    TripAgent.GraphOutputsTyped(start, tools);
    CompleteResultResponds(result);
    var agent := GraphAgent(tools);
    assert agent(start) == Returned(result);
    ReturnedResultPlanned(request, agent, result);
  }

  /** An agent that returns a result the response accepts yields that response. */
  lemma ReturnedResultPlanned(request: TripRequest, agent: Agent, result: State)
    requires agent(InitialState(request)) == Returned(result)
    requires ToResponse(result).Ok?
    ensures GenerateTripPlan(request, agent) == Planned(ToResponse(result).value)
  {
  }

  /**
   * The route, run with the workflow's own tools, never fails: whatever the credentials
   * and whatever the providers do, it answers with the graph's outputs and at most five links.
   */
  lemma PlanTripSucceeds(request: TripRequest, env: Tools.Env)
    ensures PlanTrip(request, env).Planned?
    ensures VLinks(PlanTrip(request, env).response.usefulLinks)
         == TripAgent.RunAgent(InitialState(request), env)[USEFUL_LINKS]
    ensures |PlanTrip(request, env).response.usefulLinks| <= Tools.MAX_LINKS
    ensures PlanTrip(request, env).response.message == Some(SUCCESS_MESSAGE)
  {
  }

  /**
   * Without a usable Serper key, the plan's links are the five mock links for the
   * requested destination, whatever the text generation provider does.
   */
  lemma MockLinksPlanned(request: TripRequest, env: Tools.Env)
    requires !Tools.SerperConfigured(env.serperKey)
    ensures PlanTrip(request, env).Planned?
    ensures PlanTrip(request, env).response.usefulLinks == Tools.MockLinks(request.preferences.destination)
  {
    PlannedLinks(request, env);
    var p := PrefsOf(request.preferences);
    Tools.MockLinksFor(InitialState(request), env, p, request.preferences.destination);
  }

  /** The plan's links are the links tool's result on the initial state. */
  lemma PlannedLinks(request: TripRequest, env: Tools.Env)
    ensures PlanTrip(request, env).Planned?
    ensures VLinks(PlanTrip(request, env).response.usefulLinks)
         == Tools.FetchUsefulLinks(InitialState(request), env)[USEFUL_LINKS]
  {
    PlanTripSucceeds(request, env);
    TripAgent.AgentLinks(InitialState(request), env);
  }

  // ---------------------------------------------------------------- the configuration report

  const READY := "ready"
  const MOCK_DATA_MODE := "mock_data_mode"

  /** `get_config`: whether each credential is set, and the overall status. */
  datatype ConfigReport = ConfigReport(googleApiConfigured: bool, serperApiConfigured: bool, status: string)

  function ConfigStatus(googleKey: Option<string>, serperKey: Option<string>): (r: ConfigReport)
    ensures r.googleApiConfigured <==> Tools.Truthy(googleKey)
    ensures r.serperApiConfigured <==> Tools.Truthy(serperKey)
    ensures r.status == READY <==> r.googleApiConfigured && r.serperApiConfigured
    ensures r.status == READY || r.status == MOCK_DATA_MODE
  {
    var google := Tools.Truthy(googleKey);
    var serper := Tools.Truthy(serperKey);
    ConfigReport(google, serper, if google && serper then READY else MOCK_DATA_MODE)
  }

  /** When the report says "mock_data_mode", at least one of the tools' providers is indeed not called. */
  lemma MockModeMeansMocking(googleKey: Option<string>, serperKey: Option<string>)
    requires ConfigStatus(googleKey, serperKey).status == MOCK_DATA_MODE
    ensures !Tools.GeminiConfigured(googleKey) || !Tools.SerperConfigured(serperKey)
  {
  }

  /** When the tools call both providers, the report says "ready". */
  lemma LiveModeIsReady(googleKey: Option<string>, serperKey: Option<string>)
    requires Tools.GeminiConfigured(googleKey) && Tools.SerperConfigured(serperKey)
    ensures ConfigStatus(googleKey, serperKey).status == READY
  {
  }

  /**
   * "ready" does not mean the providers are called: with the placeholder Gemini key and a
   * blank Serper key the report says "ready" while every tool returns mock content.
   */
  lemma ReadyWhileMocking()
    ensures ConfigStatus(Some(Tools.GOOGLE_KEY_PLACEHOLDER), Some(" ")).status == READY
    ensures !Tools.GeminiConfigured(Some(Tools.GOOGLE_KEY_PLACEHOLDER))
    ensures !Tools.SerperConfigured(Some(" "))
  {
    Tools.SerperMockPath(Some(" "));
    assert Text.AllSpace(" ");
  }
}
