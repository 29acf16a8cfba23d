/**
 * The trip workflow: five nodes, each of which calls one tool and merges the tool's
 * value for the node's own field into the state, run one after another along the
 * edges of a linear graph from the entry node to the end.
 *
 * The graph is stated over any set of node tools (`Toolset`); the workflow itself runs
 * it with the tools of the `Tools` module (`Registered`). The properties of the graph
 * hold for every toolset that keeps the tools' result shape (`WellShaped`) or reads
 * only what the tools read (`ReadsInputsOnly`), and the registered tools do both.
 */
module TripAgent {
  import opened Outcomes
  import opened TripState
  import Tools

  /** The five nodes of the graph. */
  datatype Step = GenerateItinerary | Weather | Activities | Links | Food

  /** The one state field a node writes. */
  function Owned(step: Step): (f: string)
    ensures f in OUTPUT_KEYS && f != PREFERENCES && f != WARNING
  {
    match step
    case GenerateItinerary => ITINERARY
    case Weather => WEATHER_FORECAST
    case Activities => ACTIVITY_SUGGESTIONS
    case Links => USEFUL_LINKS
    case Food => FOOD_CULTURE_INFO
  }

  /** The value a node falls back to when the tool's result lacks its field, and a failed tool leaves. */
  function EmptyValue(step: Step): Value {
    if step == Links then VLinks([]) else VText("")
  }

  /** The declared type of a node's field: text, or at most five links. */
  predicate Fits(step: Step, v: Value) {
    if step == Links then v.VLinks? && |v.links| <= Tools.MAX_LINKS else v.VText?
  }

  // ---------------------------------------------------------------- the tools the nodes call

  /** The tool a node calls. */
  function Tool(step: Step, state: State, env: Tools.Env): (r: map<string, Value>)
    ensures Tools.Shaped(r, Owned(step), EmptyValue(step))
    ensures Fits(step, r[Owned(step)])
  {
    match step
    case GenerateItinerary => Tools.GenerateItinerary(state, env)
    case Weather => Tools.WeatherForecaster(state, env)
    case Activities => Tools.RecommendActivities(state, env)
    case Links => Tools.FetchUsefulLinks(state, env)
    case Food => Tools.FoodCultureRecommender(state, env)
  }

  /** A tool for every node: what the node's tool returns on a given state. */
  type Toolset = (Step, State) -> map<string, Value>

  /** The tools the workflow's nodes call, with the given environment and providers. */
  function Registered(env: Tools.Env): Toolset {
    (step: Step, s: State) => Tool(step, s, env)
  }

  /**
   * Every result holds the tool's own field with a value of the field's type; on
   * failure the field is empty and the only other key is a textual `warning`.
   */
  ghost predicate WellShaped(tools: Toolset) {
    forall step, s ::
      Tools.Shaped(tools(step, s), Owned(step), EmptyValue(step)) && Fits(step, tools(step, s)[Owned(step)])
  }

  /** Two states with the same preferences and, for the activities step, the same itinerary. */
  predicate SameInputs(step: Step, s1: State, s2: State) {
    && Tools.RawPrefs(s1) == Tools.RawPrefs(s2)
    && (step == Activities ==> Get(s1, ITINERARY, VText("")) == Get(s2, ITINERARY, VText("")))
  }

  /** A tool reads nothing of the state but the preferences and, for the activities step, the itinerary. */
  ghost predicate ReadsInputsOnly(tools: Toolset) {
    forall step, s1, s2 :: SameInputs(step, s1, s2) ==> tools(step, s1) == tools(step, s2)
  }

  /** The registered tools keep the result shape. */
  lemma RegisteredShaped(env: Tools.Env)
    ensures WellShaped(Registered(env))
  {
    forall step, s
      ensures Tools.Shaped(Registered(env)(step, s), Owned(step), EmptyValue(step))
      ensures Fits(step, Registered(env)(step, s)[Owned(step)])
    {
      assert Registered(env)(step, s) == Tool(step, s, env);
    }
  }

  /** Two states that agree on a tool's inputs give the same tool result. */
  lemma ToolReads(step: Step, s1: State, s2: State, env: Tools.Env)
    requires SameInputs(step, s1, s2)
    ensures Tool(step, s1, env) == Tool(step, s2, env)
  {
    match step
    case GenerateItinerary => Tools.ItineraryReads(s1, s2, env);
    case Weather => Tools.WeatherReads(s1, s2, env);
    case Activities => Tools.ActivitiesReads(s1, s2, env);
    case Links => Tools.LinksReads(s1, s2, env);
    case Food => Tools.FoodReads(s1, s2, env);
  }

  /** The registered tools read only their inputs. */
  lemma RegisteredReadsInputsOnly(env: Tools.Env)
    ensures ReadsInputsOnly(Registered(env))
  {
    forall step, s1, s2 | SameInputs(step, s1, s2)
      ensures Registered(env)(step, s1) == Registered(env)(step, s2)
    {
      ToolReads(step, s1, s2, env);
    }
  }

  // ---------------------------------------------------------------- the nodes

  /**
   * The merge every node performs: a new dictionary holding `value` under `field` and
   * every other key of `state` with its value unchanged.
   */
  function Merge(state: State, field: string, value: Value): (r: State)
    ensures r.Keys == state.Keys + {field}
    ensures r[field] == value
    ensures forall k :: k in state && k != field ==> r[k] == state[k]
  {
    map[field := value] + map k | k in state && k != field :: state[k]
  }

  /** Merging the same value into the same field twice gives the state merging it once gives. */
  lemma MergeIdempotent(state: State, field: string, value: Value)
    ensures Merge(Merge(state, field, value), field, value) == Merge(state, field, value)
  {
    var once := Merge(state, field, value);
    var twice := Merge(once, field, value);
    assert twice.Keys == once.Keys;
    assert forall k :: k in once ==> twice[k] == once[k];
  }

  /** The value a node reads from its tool's result: `result.get(field, default)`. */
  function StepValue(step: Step, state: State, tools: Toolset): Value {
    Get(tools(step, state), Owned(step), EmptyValue(step))
  }

  /**
   * A node: its field becomes the tool's value for that field; every other key keeps its
   * value; nothing is dropped; the tool's `warning` does not reach the state. With tools
   * that keep the result shape the field gets a value of its declared type.
   */
  function Node(step: Step, state: State, tools: Toolset): (r: State)
    ensures r.Keys == state.Keys + {Owned(step)}
    ensures r[Owned(step)] == StepValue(step, state, tools)
    ensures forall k :: k in state && k != Owned(step) ==> r[k] == state[k]
    ensures WARNING in r <==> WARNING in state
    ensures WellShaped(tools) ==> Fits(step, r[Owned(step)])
  {
    Merge(state, Owned(step), StepValue(step, state, tools))
  }

  /** Running a node twice on its own output changes nothing more: no tool reads the field it writes. */
  lemma NodeIdempotent(step: Step, state: State, tools: Toolset)
    requires ReadsInputsOnly(tools)
    ensures Node(step, Node(step, state, tools), tools) == Node(step, state, tools)
  {
    var once := Node(step, state, tools);
    assert Tools.RawPrefs(once) == Tools.RawPrefs(state);
    assert step == Activities ==> Get(once, ITINERARY, VText("")) == Get(state, ITINERARY, VText(""));
    assert SameInputs(step, once, state);
    MergeIdempotent(state, Owned(step), StepValue(step, state, tools));
  }

  // ---------------------------------------------------------------- the graph

  /** The entry node. */
  const ENTRY := GenerateItinerary

  /** The position of a node along the chain of edges. */
  function Rank(step: Step): nat {
    match step
    case GenerateItinerary => 0
    case Weather => 1
    case Activities => 2
    case Links => 3
    case Food => 4
  }

  /** The edges: each node's successor, `None` standing for the end of the graph. */
  function Successor(step: Step): (next: Option<Step>)
    ensures next.Some? <==> step != Food
    ensures next.Some? ==> Rank(next.value) == Rank(step) + 1
  {
    match step
    case GenerateItinerary => Some(Weather)
    case Weather => Some(Activities)
    case Activities => Some(Links)
    case Links => Some(Food)
    case Food => None
  }

  /** The nodes visited from `step` on, following the edges until the end. */
  function PathFrom(step: Step): (path: seq<Step>)
    ensures |path| > 0 && path[0] == step
    ensures forall i :: 0 <= i < |path| - 1 ==> Successor(path[i]) == Some(path[i + 1])
    ensures Successor(path[|path| - 1]) == None
    decreases 4 - Rank(step)
  {
    match Successor(step)
    case None => [step]
    case Some(next) => [step] + PathFrom(next)
  }

  /** The order the workflow runs its nodes in: itinerary, weather, activities, links, food. */
  function Chain(): seq<Step> {
    [GenerateItinerary, Weather, Activities, Links, Food]
  }

  /** The chain is the path the edges take from the entry node to the end. */
  lemma ChainOrder()
    ensures PathFrom(ENTRY) == Chain()
  {
    assert PathFrom(Food) == [Food];
    assert PathFrom(Links) == [Links, Food];
    assert PathFrom(Activities) == [Activities, Links, Food];
    assert PathFrom(Weather) == [Weather, Activities, Links, Food];
  }

  /** Each node sits in the chain at its rank. */
  lemma ChainSteps()
    ensures |Chain()| == 5
    ensures forall step :: Chain()[Rank(step)] == step
  {
  }

  /** Each output field is owned by exactly one step of the chain. */
  lemma ChainOwners()
    ensures DistinctOwners(Chain())
    ensures OwnedBy(Chain()) == OUTPUT_KEYS
  {
    var chain := Chain();
    assert Owned(chain[0]) == ITINERARY && Owned(chain[1]) == WEATHER_FORECAST;
    assert Owned(chain[2]) == ACTIVITY_SUGGESTIONS && Owned(chain[3]) == USEFUL_LINKS;
    assert Owned(chain[4]) == FOOD_CULTURE_INFO;
  }

  // ---------------------------------------------------------------- running the steps

  /** The fields the given steps own. */
  function OwnedBy(steps: seq<Step>): set<string> {
    set i | 0 <= i < |steps| :: Owned(steps[i])
  }

  /** No two steps own the same field. */
  predicate DistinctOwners(steps: seq<Step>) {
    forall i, j :: 0 <= i < j < |steps| ==> Owned(steps[i]) != Owned(steps[j])
  }

  lemma OwnedByCons(steps: seq<Step>)
    requires steps != []
    ensures OwnedBy(steps) == {Owned(steps[0])} + OwnedBy(steps[1..])
  {
    forall f | f in OwnedBy(steps) ensures f in {Owned(steps[0])} + OwnedBy(steps[1..]) {
      var i :| 0 <= i < |steps| && f == Owned(steps[i]);
      if i > 0 { assert steps[1..][i - 1] == steps[i]; }
    }
  }

  /**
   * Runs the steps in order, each on the state the previous one produced. The result
   * holds every key of the start state plus the fields the steps own, and every key no
   * step owns keeps its value.
   */
  function RunSteps(steps: seq<Step>, state: State, tools: Toolset): (r: State)
    ensures r.Keys == state.Keys + OwnedBy(steps)
    ensures forall k :: k in state && k !in OwnedBy(steps) ==> r[k] == state[k]
    decreases |steps|
  {
    if steps == [] then state
    else
      OwnedByCons(steps);
      RunSteps(steps[1..], Node(steps[0], state, tools), tools)
  }

  /** The state the `i`-th step receives: the one the steps before it produced. */
  function StateBefore(steps: seq<Step>, state: State, tools: Toolset, i: nat): State
    requires i <= |steps|
  {
    RunSteps(steps[..i], state, tools)
  }

  /** Running one more step runs the earlier ones, then that step on their result. */
  lemma {:induction false} RunStepsSnoc(steps: seq<Step>, last: Step, state: State, tools: Toolset)
    ensures RunSteps(steps + [last], state, tools) == Node(last, RunSteps(steps, state, tools), tools)
    decreases |steps|
  {
    if steps != [] {
      assert (steps + [last])[1..] == steps[1..] + [last];
      RunStepsSnoc(steps[1..], last, Node(steps[0], state, tools), tools);
    }
  }

  /** The `i + 1`-th step receives what the `i`-th step made of the state it received. */
  lemma StateBeforeNext(steps: seq<Step>, state: State, tools: Toolset, i: nat)
    requires i < |steps|
    ensures StateBefore(steps, state, tools, i + 1)
         == Node(steps[i], StateBefore(steps, state, tools, i), tools)
  {
    assert steps[..i + 1] == steps[..i] + [steps[i]];
    RunStepsSnoc(steps[..i], steps[i], state, tools);
  }

  /** Running `a` and then `b` is running `a + b`. */
  lemma {:induction false} RunStepsAppend(a: seq<Step>, b: seq<Step>, state: State, tools: Toolset)
    ensures RunSteps(a + b, state, tools) == RunSteps(b, RunSteps(a, state, tools), tools)
    decreases |a|
  {
    if a == [] {
      assert a + b == b;
    } else {
      assert (a + b)[0] == a[0] && (a + b)[1..] == a[1..] + b;
      RunStepsAppend(a[1..], b, Node(a[0], state, tools), tools);
    }
  }

  /**
   * Every earlier step's output is visible: the state the `i`-th step receives holds,
   * in the field of each step `j < i`, exactly the value step `j` produced.
   */
  lemma EarlierStepsSeen(steps: seq<Step>, state: State, tools: Toolset, i: nat, j: nat)
    requires DistinctOwners(steps)
    requires j < i <= |steps|
    ensures Owned(steps[j]) in StateBefore(steps, state, tools, i)
    ensures StateBefore(steps, state, tools, i)[Owned(steps[j])]
         == StepValue(steps[j], StateBefore(steps, state, tools, j), tools)
  {
    StateBeforeNext(steps, state, tools, j);
    PrefixSplit(steps, j + 1, i);
    RunStepsAppend(steps[..j + 1], steps[j + 1..i], state, tools);
    OwnerNotLater(steps, j, i);
  }

  lemma PrefixSplit(steps: seq<Step>, j: nat, i: nat)
    requires j <= i <= |steps|
    ensures steps[..i] == steps[..j] + steps[j..i]
  {
  }

  /** With distinct owners, no step after the `j`-th owns its field. */
  lemma OwnerNotLater(steps: seq<Step>, j: nat, i: nat)
    requires DistinctOwners(steps)
    requires j < i <= |steps|
    ensures Owned(steps[j]) !in OwnedBy(steps[j + 1..i])
  {
    var rest := steps[j + 1..i];
    assert forall k :: 0 <= k < |rest| ==> rest[k] == steps[j + 1 + k];
  }

  /**
   * No later step's output is visible: in the state the `i`-th step receives, the field
   * of each step `j >= i` is present exactly when it was at the start, with its start value.
   */
  lemma LaterStepsUnseen(steps: seq<Step>, state: State, tools: Toolset, i: nat, j: nat)
    requires DistinctOwners(steps)
    requires i <= j < |steps|
    ensures Owned(steps[j]) in StateBefore(steps, state, tools, i) <==> Owned(steps[j]) in state
    ensures Owned(steps[j]) in state ==>
      StateBefore(steps, state, tools, i)[Owned(steps[j])] == state[Owned(steps[j])]
  {
    var f := Owned(steps[j]);
    assert forall k :: 0 <= k < i ==> Owned(steps[..i][k]) != f;
    assert f !in OwnedBy(steps[..i]);
  }

  /**
   * After the steps run, the field of each step holds a value of that step's declared
   * type: the one the step wrote, which no later step overwrites.
   */
  lemma {:induction false} RunStepsFits(steps: seq<Step>, state: State, tools: Toolset, i: nat)
    requires WellShaped(tools)
    requires DistinctOwners(steps)
    requires i < |steps|
    ensures Owned(steps[i]) in RunSteps(steps, state, tools)
    ensures Fits(steps[i], RunSteps(steps, state, tools)[Owned(steps[i])])
    decreases |steps|
  {
    var rest := steps[1..];
    if i == 0 {
      assert forall k :: 0 <= k < |rest| ==> Owned(rest[k]) != Owned(steps[0]);
      assert Owned(steps[0]) !in OwnedBy(rest);
    } else {
      assert rest[i - 1] == steps[i];
      assert DistinctOwners(rest) by {
        assert forall a, b :: 0 <= a < b < |rest| ==> rest[a] == steps[a + 1] && rest[b] == steps[b + 1];
      }
      RunStepsFits(rest, Node(steps[0], state, tools), tools, i - 1);
    }
  }

  /** The field of each of the steps is present in `s` and holds a value of that step's type. */
  predicate StepsFit(s: State, steps: seq<Step>) {
    forall i :: 0 <= i < |steps| ==> Owned(steps[i]) in s && Fits(steps[i], s[Owned(steps[i])])
  }

  /** After the steps run, each step's field holds a value of that step's type. */
  lemma RunStepsFit(steps: seq<Step>, state: State, tools: Toolset)
    requires WellShaped(tools)
    requires DistinctOwners(steps)
    ensures StepsFit(RunSteps(steps, state, tools), steps)
  {
    forall i | 0 <= i < |steps|
      ensures Owned(steps[i]) in RunSteps(steps, state, tools)
      ensures Fits(steps[i], RunSteps(steps, state, tools)[Owned(steps[i])])
    {
      RunStepsFits(steps, state, tools, i);
    }
  }

  // ---------------------------------------------------------------- the compiled graph

  /**
   * The compiled graph: the chain of nodes run from the entry to the end. Its result
   * holds every key of its input plus the five output fields, and every other key keeps
   * its value.
   */
  function RunGraph(state: State, tools: Toolset): (r: State)
    ensures r.Keys == state.Keys + OUTPUT_KEYS
    ensures forall k :: k in state && k !in OUTPUT_KEYS ==> r[k] == state[k]
  {
    ChainOwners();
    RunSteps(Chain(), state, tools)
  }

  /**
   * The agent: the compiled graph over the registered tools. Its result holds the input's
   * keys and the five output fields, each of its declared type, and every other key of
   * the input keeps its value.
   */
  function RunAgent(state: State, env: Tools.Env): (r: State)
    ensures r.Keys == state.Keys + OUTPUT_KEYS
    ensures forall k :: k in state && k !in OUTPUT_KEYS ==> r[k] == state[k]
    ensures OutputsWellTyped(r)
  {
    RegisteredShaped(env);
    GraphOutputsTyped(state, Registered(env));
    RunGraph(state, Registered(env))
  }

  /** The state a node receives when the graph runs. */
  function StepInput(state: State, tools: Toolset, step: Step): State {
    ChainSteps();
    StateBefore(Chain(), state, tools, Rank(step))
  }

  /** A state holding all six fields of the trip state yields one holding exactly its own keys. */
  lemma GraphKeepsTripFields(state: State, tools: Toolset)
    requires HasTripFields(state)
    ensures RunGraph(state, tools).Keys == state.Keys
  {
    assert OUTPUT_KEYS <= TRIP_FIELDS;
  }

  /** The graph keeps the preferences as they were and adds no `warning`. */
  lemma GraphKeepsInput(state: State, tools: Toolset)
    ensures PREFERENCES in state ==> RunGraph(state, tools)[PREFERENCES] == state[PREFERENCES]
    ensures WARNING in RunGraph(state, tools) <==> WARNING in state
  {
    ChainOwners();
  }

  /** A state in which every step of the chain fits has its output fields well typed. */
  lemma ChainFitTyped(s: State)
    requires StepsFit(s, Chain())
    ensures OutputsWellTyped(s)
  {
    var chain := Chain();
    assert Owned(chain[0]) == ITINERARY && Owned(chain[1]) == WEATHER_FORECAST;
    assert Owned(chain[2]) == ACTIVITY_SUGGESTIONS && Owned(chain[3]) == USEFUL_LINKS;
    assert Owned(chain[4]) == FOOD_CULTURE_INFO;
  }

  /** With tools that keep the result shape, each output field of the result has its declared type. */
  lemma GraphOutputsTyped(state: State, tools: Toolset)
    requires WellShaped(tools)
    ensures OutputsWellTyped(RunGraph(state, tools))
  {
    ChainOwners();
    RunStepsFit(Chain(), state, tools);
    ChainFitTyped(RunGraph(state, tools));
  }

  /** Running steps never changes the preferences. */
  lemma RunStepsKeepsPrefs(steps: seq<Step>, state: State, tools: Toolset)
    ensures Tools.RawPrefs(RunSteps(steps, state, tools)) == Tools.RawPrefs(state)
  {
    assert forall k :: 0 <= k < |steps| ==> Owned(steps[k]) != PREFERENCES;
    assert PREFERENCES !in OwnedBy(steps);
  }

  /** Every node receives the preferences the graph was started with. */
  lemma StepInputPrefs(state: State, tools: Toolset, step: Step)
    ensures Tools.RawPrefs(StepInput(state, tools, step)) == Tools.RawPrefs(state)
  {
    ChainSteps();
    RunStepsKeepsPrefs(Chain()[..Rank(step)], state, tools);
  }

  /** The activities step receives, as the itinerary, the value the itinerary step produced. */
  lemma ItineraryReachesActivities(state: State, tools: Toolset)
    ensures Get(StepInput(state, tools, Activities), ITINERARY, VText(""))
         == StepValue(GenerateItinerary, state, tools)
  {
    ChainOwners();
    ChainSteps();
    var chain := Chain();
    EarlierStepsSeen(chain, state, tools, 2, 0);
    assert StateBefore(chain, state, tools, 0) == state;
  }

  /**
   * The activities step, the only one whose tool reads an earlier output, works on the
   * itinerary the itinerary step wrote and on the unchanged preferences: its tool result
   * is the one it would give on a state holding just those two.
   */
  lemma ActivitiesSeesItinerary(state: State, tools: Toolset)
    requires ReadsInputsOnly(tools)
    ensures tools(Activities, StepInput(state, tools, Activities))
         == tools(Activities, map[PREFERENCES := Tools.RawPrefs(state),
                                  ITINERARY := StepValue(GenerateItinerary, state, tools)])
  {
    var before := StepInput(state, tools, Activities);
    ItineraryReachesActivities(state, tools);
    StepInputPrefs(state, tools, Activities);
    var small := map[PREFERENCES := Tools.RawPrefs(state), ITINERARY := StepValue(GenerateItinerary, state, tools)];
    assert SameInputs(Activities, before, small);
  }

  /**
   * Each output field of the graph's result holds what its step's tool gave for it on
   * the state the step received: no later step overwrites it.
   */
  lemma GraphFinalValue(state: State, tools: Toolset, step: Step)
    ensures RunGraph(state, tools)[Owned(step)] == StepValue(step, StepInput(state, tools, step), tools)
  {
    ChainOwners();
    ChainSteps();
    var chain := Chain();
    assert chain[..5] == chain;
    EarlierStepsSeen(chain, state, tools, 5, Rank(step));
  }

  /**
   * Every step but the activities step produces in the agent's result what its tool
   * gives on the agent's input: the order of those steps does not matter to them.
   */
  lemma PrefsStepFinalValue(state: State, env: Tools.Env, step: Step)
    requires step != Activities
    ensures RunAgent(state, env)[Owned(step)] == Get(Tool(step, state, env), Owned(step), EmptyValue(step))
  {
    var tools := Registered(env);
    GraphFinalValue(state, tools, step);
    StepInputPrefs(state, tools, step);
    ToolReads(step, StepInput(state, tools, step), state, env);
  }

  /** The agent's links are those the links tool gives on the agent's input. */
  lemma AgentLinks(state: State, env: Tools.Env)
    ensures RunAgent(state, env)[USEFUL_LINKS] == Tools.FetchUsefulLinks(state, env)[USEFUL_LINKS]
  {
    PrefsStepFinalValue(state, env, Links);
    LinksTool(state, env);
  }

  lemma LinksTool(state: State, env: Tools.Env)
    ensures Tool(Links, state, env) == Tools.FetchUsefulLinks(state, env)
  {
  }

  /**
   * A step whose tool fails on the state it receives leaves its field empty in the
   * final state, and the failure's warning does not reach it.
   */
  lemma FailedStepLeavesEmpty(state: State, tools: Toolset, step: Step)
    requires WellShaped(tools)
    requires WARNING !in state
    requires WARNING in tools(step, StepInput(state, tools, step))
    ensures RunGraph(state, tools)[Owned(step)] == EmptyValue(step)
    ensures WARNING !in RunGraph(state, tools)
  {
    GraphFinalValue(state, tools, step);
    GraphKeepsInput(state, tools);
  }

  /**
   * With both providers configured and the text generation provider raising for the
   * weather prompt, the agent's final state has an empty `weather_forecast` and no
   * `warning`: the failure is invisible in the result.
   */
  lemma WeatherFailureLeavesEmpty(state: State, env: Tools.Env)
    requires WARNING !in state
    requires Tools.GeminiConfigured(env.googleKey)
    requires Tools.AsDict(Tools.RawPrefs(state)).Ok?
    requires var p := Tools.AsDict(Tools.RawPrefs(state)).value;
             env.llm(Tools.WeatherPrompt(p.destination.GetOr(""), p.month.GetOr(""))).Err?
    ensures RunAgent(state, env)[WEATHER_FORECAST] == VText("")
    ensures WARNING !in RunAgent(state, env)
  {
    var tools := Registered(env);
    RegisteredShaped(env);
    var before := StepInput(state, tools, Weather);
    StepInputPrefs(state, tools, Weather);
    ToolReads(Weather, before, state, env);
    assert WARNING in Tool(Weather, state, env);
    FailedStepLeavesEmpty(state, tools, Weather);
  }
}
