# trip-agent, modelled in Dafny

trip-agent is a trip-planning service. A request carries travel preferences: destination, month, budget tier, travel style and interests. The service turns them into a trip plan by running a fixed pipeline of five steps over a shared state dictionary:

1. itinerary;
2. weather forecast;
3. activity suggestions;
4. useful links;
5. food and culture guide.

Each step calls one tool:

- The tool checks whether its provider's credential is configured. The providers are Gemini for text and Serper for web search.
- If the credential is not configured, the tool returns deterministic mock content built from the preferences.
- If it is configured, the tool calls the provider. The text tools whitespace-strip the answer; the links tool keeps the first five organic search results as title and link records.
- Any exception becomes an empty field plus a `warning`.

The node around each tool writes the tool's value for the step's own field into the state and copies every other key unchanged. The HTTP route builds the initial state from the request, runs the pipeline, and maps the result onto a response record, filling in fixed defaults for absent fields. A configuration endpoint reports whether both credentials are set.

The model is functional Dafny throughout; the source files are pure too:

- Python dictionaries become maps.
- The preferences dictionary becomes a record of optional fields.
- Python's `str.strip()`, `", ".join(...)` and f-string concatenation are written out (module `Text`).
- The environment variables and both providers are parameters (`Tools.Env`). A provider is a function from its prompt or query to `Ok(content)` or `Err(message)`.

Files:

- `outcomes.dfy`: `Option` and `Result`.
- `text.dfy`: `strip`, `join`, concatenation, substring containment.
- `trip_state.dfy`: the state dictionary and its six fields.
- `trip_schema.dfy`: the request and response records and their defaults.
- `all_tools.dfy`: the five tools, `get_llm`, the mock content, the search query and the link shaping.
- `trip_agent.dfy`: the nodes, the merge, the graph's edges and the run of the graph. The graph is stated over any toolset. The toolset the workflow registers is proved to keep the tools' result shape and to read only the tools' inputs, so every property of the generic graph holds for the real pipeline.
- `trip_routes.dfy`: the route's initial state, response mapping, error outcomes and configuration status.

Behaviour of the code worth knowing, which the model follows:

- **Failed steps leave their field empty.** A tool yields mock content only when its provider is not configured: for Gemini a key that is absent, empty or the placeholder (app/tools/all_tools.py:21, 77, 121, 213; `Tools.GeminiMockPath`), for Serper a key that is absent or whitespace only (app/tools/all_tools.py:170). A provider failure leaves the field empty (`""` or `[]`), and the node drops the `warning` (app/agents/trip_agent.py:33-37). So the final state never carries a warning, and no failed step gets fallback content. `TripAgent.FailedStepLeavesEmpty` and `TripAgent.WeatherFailureLeavesEmpty` prove this.
- **Defaults for a missing destination differ by tool.** The itinerary, activities and links mocks read a missing destination as `"Unknown"`. The weather and food tools default it to `""`, and the search query uses `"your destination"`.
- **The Serper check differs from the Gemini check.** The placeholder key is checked only for Gemini. The Serper key is checked only for absence or whitespace (`Tools.SerperMockPath`).
- **"ready" does not mean the tools run live.** The configuration status says `"ready"` whenever both keys are non-empty, including the Gemini placeholder key or a whitespace-only Serper key. With the placeholder Gemini key the four text tools return mock content; with a whitespace-only Serper key the links tool does; with both, every tool does (`TripRoutes.ReadyWhileMocking`).

## Model

| member | source | states |
|---|---|---|
| TripSchema.NewTripPreferences | app/schemas/trip_schema.py:4-9 | destination and month are taken as given; budget tier defaults to "mid-range", travel style to "cultural", interests to the empty list |
| TripSchema.NewTripResponse | app/schemas/trip_schema.py:14-21 | the five content fields are taken as given, links as a list of string-to-string maps; status defaults to "success", message to none |
| TripSchema.NewErrorResponse | app/schemas/trip_schema.py:23-26 | message is required; status defaults to "error", details to none |
| Text.Strip | app/tools/all_tools.py:63 | the result is the infix of the input between a whitespace prefix and a whitespace suffix, and is empty or begins and ends with non-whitespace |
| Text.StripUnique | app/tools/all_tools.py:63 | whitespace + r + whitespace strips to exactly r, when r is empty or framed by non-whitespace |
| Text.StripIdempotent | app/tools/all_tools.py:51 | stripping an already stripped result changes nothing |
| Text.StripBlank | app/tools/all_tools.py:170 | `s.strip() == ""` exactly when s is all whitespace |
| Text.Join | app/tools/all_tools.py:44 | `sep.join` of no parts is empty, of one part is that part, and otherwise begins with the first part and ends with the last |
| Text.JoinContains | app/tools/all_tools.py:44 | every interest occurs in the `", "`-joined list |
| Tools.GetLlm | app/tools/all_tools.py:7-12 | client construction raises "GOOGLE_API_KEY environment variable not set" exactly when the key is absent or empty; otherwise it builds a gemini-2.0-flash client with that key |
| Tools.ConfiguredKeyBuildsClient | app/tools/all_tools.py:7-12 | when the Gemini check lets a tool reach its live path, client construction cannot raise |
| Tools.GeminiMockPath | app/tools/all_tools.py:120-121 | the text tools (here the itinerary; the same test at lines 21, 77 and 213) take their mock path exactly when the key is absent, empty or "your_google_gemini_api_key_here" |
| Tools.SerperMockPath | app/tools/all_tools.py:167-170 | the links tool takes its mock path exactly when the key is absent or whitespace only; the placeholder is not checked |
| Tools.AsDict | app/tools/all_tools.py:71-73 | `.get` on the preferences answers exactly when they are a dictionary, and raises for a string or a list |
| Tools.AskLlm | app/tools/all_tools.py:61-66 | the result is the provider's stripped answer under the tool's own key, or on failure an empty field plus the error message as `warning` |
| Tools.StripTemplate | app/tools/all_tools.py:26-51 | stripping a mock template returns its body |
| Tools.ItineraryBody | app/tools/all_tools.py:127-146 | the mock itinerary is framed and names the destination, the month and the budget tier |
| Tools.WeatherBody | app/tools/all_tools.py:79-96 | the mock forecast is framed and names the destination and the month |
| Tools.ActivitiesBody | app/tools/all_tools.py:26-50 | the mock suggestions are framed and name the destination and every interest |
| Tools.InterestsListed | app/tools/all_tools.py:44 | each interest joined into the mock suggestions occurs in them |
| Tools.FoodBody | app/tools/all_tools.py:215-242 | the mock food guide is framed and names the destination and the budget tier |
| Tools.MockLinks | app/tools/all_tools.py:171-180 | exactly five links, each with keys title and link, with fixed URLs, each title containing the destination |
| Tools.MockTitlesNameDestination | app/tools/all_tools.py:174-178 | each mock title contains the destination |
| Tools.SearchQuery | app/tools/all_tools.py:183-186 | the query is "Travel tips and guides for ", then the destination or "your destination", then " in ", then the month or "your travel month" |
| Tools.LinkOf | app/tools/all_tools.py:194 | a link record has exactly the keys "title" and "link": the result's title or "No title", its link or "" |
| Tools.LiveLinks | app/tools/all_tools.py:192-197 | the first at most five organic results in order; a missing title becomes "No title", a missing link "" |
| Tools.GenerateItinerary | app/tools/all_tools.py:115-161 | the result holds only the itinerary, plus `warning` on failure. It is the stripped mock with defaults Unknown/Unknown/mid-range when the key is unusable, the stripped answer when the provider succeeds, and an empty field plus `warning` on any exception |
| Tools.WeatherForecaster | app/tools/all_tools.py:69-112 | the preferences are read before the key check, with destination and month defaulting to ""; mock, live and failure results as for the itinerary |
| Tools.RecommendActivities | app/tools/all_tools.py:14-66 | the mock uses destination (default Unknown) and the joined interests; the live prompt embeds the preferences and the state's itinerary; failure gives an empty field plus `warning` |
| Tools.FetchUsefulLinks | app/tools/all_tools.py:164-201 | at most five links. Without a usable key they are the five mock links. With one, they are the shaped organic results of the query. A missing "organic" gives []. Any exception gives [] plus "Failed to fetch links: " and the message |
| Tools.FoodCultureRecommender | app/tools/all_tools.py:205-260 | destination defaults to "", budget tier to "mid-range"; mock, live and failure results as for the itinerary |
| Tools.MockLinksFor | app/tools/all_tools.py:170-180 | without a usable Serper key, preferences naming a destination give exactly its five mock links |
| Tools.ItineraryReads | app/tools/all_tools.py:117 | the itinerary tool reads only the preferences |
| Tools.WeatherReads | app/tools/all_tools.py:71-73 | the weather tool reads only the preferences |
| Tools.ActivitiesReads | app/tools/all_tools.py:16-17 | the activities tool reads only the preferences and the itinerary |
| Tools.LinksReads | app/tools/all_tools.py:171-185 | the links tool reads only the preferences |
| Tools.FoodReads | app/tools/all_tools.py:207-209 | the food tool reads only the preferences |
| TripAgent.Owned | app/agents/trip_agent.py:14-23 | each node writes one of the five output fields of the trip state, never the preferences or `warning` |
| TripAgent.Tool | app/agents/trip_agent.py:26-81 | each node's tool returns its own field with a value of that field's type, plus on failure only an empty field and a textual `warning` |
| TripAgent.RegisteredShaped | app/agents/trip_agent.py:26-81 | the toolset the workflow registers keeps that result shape |
| TripAgent.ToolReads | app/tools/all_tools.py:14-17 | two states with the same preferences, and for activities the same itinerary, give the same tool result |
| TripAgent.RegisteredReadsInputsOnly | app/agents/trip_agent.py:26-81 | the registered toolset reads nothing but those inputs |
| TripAgent.Merge | app/agents/trip_agent.py:33-37 | the new state holds the value under the field, and every other key of the old state unchanged; no key is dropped |
| TripAgent.MergeIdempotent | app/agents/trip_agent.py:33-37 | merging the same value twice equals merging it once |
| TripAgent.Node | app/agents/trip_agent.py:26-81 | the field becomes the tool's value for it, or "" / [] when absent. Every other key is unchanged, and the key set is the old one plus the field. `warning` is never copied in. With shaped tools the field is well typed |
| TripAgent.NodeIdempotent | app/agents/trip_agent.py:26-81 | for a toolset that reads only its inputs and answers them the same way each time, running a node again on its own output changes nothing |
| TripAgent.Successor | app/agents/trip_agent.py:96-101 | every node but food has a successor, food leads to END, and each edge goes one rank further: itinerary → weather → activities → links → food → END |
| TripAgent.PathFrom | app/agents/trip_agent.py:94-101 | the path from a node follows the edges and stops at the node whose successor is END |
| TripAgent.ChainOrder | app/agents/trip_agent.py:94-101 | from the entry node the edges visit itinerary, weather, activities, links, food, and end |
| TripAgent.ChainSteps | app/agents/trip_agent.py:94-101 | the chain has five nodes, each at its rank |
| TripAgent.ChainOwners | app/agents/trip_agent.py:87-101 | the chain's nodes own distinct fields, together exactly the five output fields |
| TripAgent.RunSteps | app/agents/trip_agent.py:84-104 | running steps in order yields every input key plus the owned fields, and keys no step owns keep their values |
| TripAgent.RunStepsSnoc | app/agents/trip_agent.py:96-101 | running one more step is running the earlier ones, then that step on their result |
| TripAgent.RunStepsAppend | app/agents/trip_agent.py:96-101 | running two segments in turn is running their concatenation |
| TripAgent.StateBeforeNext | app/agents/trip_agent.py:96-101 | each node receives what its predecessor made of the state the predecessor received |
| TripAgent.EarlierStepsSeen | app/agents/trip_agent.py:96-101 | the state a node receives holds, in each earlier node's field, exactly the value that node produced |
| TripAgent.LaterStepsUnseen | app/agents/trip_agent.py:96-101 | the state a node receives holds no later node's output: those fields are as in the input |
| TripAgent.RunStepsFits | app/agents/trip_agent.py:26-81 | after the steps run, each step's field holds a value of its declared type |
| TripAgent.RunStepsFit | app/agents/trip_agent.py:26-81 | the same, for all steps at once |
| TripAgent.RunAgent | app/agents/trip_agent.py:104 | the compiled agent's result holds the input keys plus the five output fields, each of its declared type with at most five links, and every other key keeps its value |
| TripAgent.RunGraph | app/agents/trip_agent.py:84-104 | the compiled graph's result holds the input keys plus the five output fields; every other key keeps its value |
| TripAgent.GraphKeepsTripFields | app/agents/trip_agent.py:14-23 | from a state with all six trip-state fields, the result has exactly the input's keys |
| TripAgent.GraphKeepsInput | app/agents/trip_agent.py:33-37 | the preferences are unchanged and no `warning` is added |
| TripAgent.ChainFitTyped | app/agents/trip_agent.py:14-23 | a state where every chain step fits has text outputs and at most five links |
| TripAgent.GraphOutputsTyped | app/agents/trip_agent.py:14-23 | with shaped tools the result's four text fields hold text and `useful_links` holds at most five links |
| TripAgent.RunStepsKeepsPrefs | app/agents/trip_agent.py:36 | no step changes the preferences |
| TripAgent.StepInputPrefs | app/agents/trip_agent.py:96-101 | every node receives the preferences the graph was started with |
| TripAgent.ItineraryReachesActivities | app/agents/trip_agent.py:97-98 | the activities node reads, as the itinerary, the value the itinerary node produced |
| TripAgent.ActivitiesSeesItinerary | app/tools/all_tools.py:16-17 | the activities tool's result is the one it gives on just the original preferences and the produced itinerary |
| TripAgent.GraphFinalValue | app/agents/trip_agent.py:96-101 | each output field of the result is what its node's tool gave on the state the node received |
| TripAgent.PrefsStepFinalValue | app/agents/trip_agent.py:96-101 | every node but activities produces what its tool gives on the graph's input: their order does not matter |
| TripAgent.LinksTool | app/agents/trip_agent.py:64 | the links node calls `fetch_useful_links` |
| TripAgent.AgentLinks | app/agents/trip_agent.py:61-70 | the agent's links are the links tool's result on the agent's input |
| TripAgent.FailedStepLeavesEmpty | app/agents/trip_agent.py:33-37 | a step whose tool fails leaves its field empty in the final state, and no `warning` reaches it |
| TripAgent.WeatherFailureLeavesEmpty | app/agents/trip_agent.py:39-48 | with Gemini configured and the weather prompt failing, the final forecast is "" and the state has no `warning` |
| TripRoutes.InitialState | app/routes/trip_routes.py:22-36 | the initial state has exactly the six trip-state fields. It holds the request's five preferences, the travel style under "travelStyle", and empty text outputs with no links |
| TripRoutes.InitialStateRoundTrip | app/routes/trip_routes.py:22-29 | the request can be read back from the initial state's preferences |
| TripRoutes.Missing | app/routes/trip_routes.py:63 | the listed keys are exactly the expected keys the result lacks |
| TripRoutes.MissingKeys | app/routes/trip_routes.py:62-65 | the missing keys are exactly the five output fields the result lacks; none missing exactly when all are present |
| TripRoutes.DefaultFor | app/routes/trip_routes.py:69-73 | each text field's default is a non-empty notice and the links default to the empty list |
| TripRoutes.ToResponse | app/routes/trip_routes.py:68-75 | each response field is the result's value when present, empty text included, and its default when absent. Status is "success", message "Trip plan generated successfully!". The response is rejected exactly when a value has the wrong type |
| TripRoutes.MissingKeysGetDefaults | app/routes/trip_routes.py:62-75 | every listed missing key appears in the response as its fixed default, and is otherwise only logged |
| TripRoutes.TypedResultResponds | app/routes/trip_routes.py:62-75 | a well-typed result always gives a response, whatever keys it lacks |
| TripRoutes.GenerateTripPlan | app/routes/trip_routes.py:14-86 | every failure is a 500. An agent that raised gives "Agent execution failed: " + message, not wrapped again. An agent returning None gives the fixed message. A rejected result gives "Failed to generate trip plan: " + message. Otherwise the response is the mapped result |
| TripRoutes.ReturnedResultPlanned | app/routes/trip_routes.py:41-75 | an agent returning an acceptable result yields exactly that result's response |
| TripRoutes.CompleteResultResponds | app/routes/trip_routes.py:62-75 | a result with all five well-typed fields lists nothing missing and carries exactly its own values |
| TripRoutes.GraphPlanned | app/routes/trip_routes.py:41-75 | with shaped tools the route never fails, lists no missing key and answers with the graph's own outputs |
| TripRoutes.PlanTripSucceeds | app/routes/trip_routes.py:41-75 | with the workflow's tools and any credentials and providers, the route answers with the agent's links (at most five) and the success message |
| TripRoutes.PlanTrip | app/routes/trip_routes.py:42 | the route as served always plans, and the plan carries exactly the agent's five outputs and the success message |
| TripRoutes.PlannedLinks | app/routes/trip_routes.py:72 | the response's links are the links tool's result on the initial state |
| TripRoutes.MockLinksPlanned | app/tools/all_tools.py:170-180 | without a usable Serper key the response carries the five mock links for the requested destination |
| TripRoutes.ConfigStatus | app/routes/trip_routes.py:100-104 | each flag is true exactly when its key is non-empty; status is "ready" exactly when both are, otherwise "mock_data_mode" |
| TripRoutes.MockModeMeansMocking | app/routes/trip_routes.py:103 | "mock_data_mode" implies that some provider is not called |
| TripRoutes.LiveModeIsReady | app/routes/trip_routes.py:103 | when both providers are called the status is "ready" |
| TripRoutes.ReadyWhileMocking | app/routes/trip_routes.py:100-104 | the placeholder Gemini key and a blank Serper key give "ready" although every tool returns mock content |

## Left out

- LangGraph's scheduler, `StateGraph`, `compile` and `invoke`. The graph is its explicit edges, folded over the path from the entry node.
  - LangGraph keeps only the channels `TripState` declares. The model passes each node's returned dictionary on as the next state.
  - The two agree on states holding exactly the six declared fields, which is what the route builds.
- The `display(Image(...))` call at import, the `__main__` test runner, and all `print` and traceback logging: these are I/O only.
- The Gemini and Serper clients are not modelled. Their calls are the provider functions of `Tools.Env`, and any exception they raise, including one from constructing the Serper wrapper, is an `Err` carrying `str(e)`.
  - The text of a provider's answer is assumed to be a string.
- The providers are deterministic in the model: `Env.llm` and `Env.search` are functions, so the same prompt or query always gets the same answer. The live Gemini and Serper calls promise no such thing. The following members rely on it:
  - TripAgent.NodeIdempotent: on a live path, running a node again yields the same value only because the provider repeats its answer. On the mock paths it holds outright.
  - TripAgent.RegisteredReadsInputsOnly, TripAgent.ToolReads and the five `Tools.*Reads` lemmas (Tools.ItineraryReads, Tools.WeatherReads, Tools.ActivitiesReads, Tools.LinksReads, Tools.FoodReads): equal tool inputs give equal results only for a provider that answers repeated prompts identically.
  - TripAgent.PrefsStepFinalValue, TripAgent.AgentLinks, TripRoutes.PlannedLinks: "what the tool gives on the input" stands for a second call, which a live provider may answer differently. These lemmas state what the run's single call returned only when the provider is deterministic.
- Prompt wording: a prompt is reduced to the parts of the state it embeds. The `json.dumps` layout is not modelled.
- Environment variables are read once per run as parameters. A key changing between two tools of the same run is not modelled.
- State values are limited to a preferences dictionary, a string or a list of link records.
  - Other Python values are not modelled: `None`, numbers, a preferences dictionary with extra or non-string entries, search results with non-string titles.
  - The non-dictionary preferences that are modelled raise on `.get` with Python's message for a `str` or a `list`.
- TripRoutes.ToResponse: the exact text of a response-validation error is not modelled. A fixed stand-in message takes its place, so the detail of that 500 error is prefix + stand-in.
- TripRoutes.MissingKeys and TripRoutes.Missing: the order in which missing keys are listed is not stated. The keys are only logged, and the model proves which keys are listed, not their order.
- FastAPI request parsing and validation (a malformed request never reaches the handler), routing, CORS and application setup in app/main.py.
- The `/health` and `/debug-agent` endpoints: HTTP plumbing and debug I/O.
- Pydantic validation of the request records: only their fields and defaults are modelled.
- app/services/course_generate.py: library calls and output parsers unrelated to the trip pipeline.
- app/tools/__init__.py: re-exports only.
