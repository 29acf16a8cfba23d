/**
 * The shared state of the trip workflow (`TripState`): a dictionary from field names
 * to values, holding one input field, `preferences`, and five output fields.
 */
module TripState {
  import opened Outcomes

  /** A link as the tools build it: a dictionary with the keys "title" and "link". */
  type LinkRecord = map<string, string>

  /**
   * The preferences dictionary, keyed "destination", "month", "budget_type",
   * "travelStyle" and "interests". Each key may be absent (`None`); the trip route
   * always sets all five.
   */
  datatype Prefs = Prefs(
    destination: Option<string>,
    month: Option<string>,
    budgetType: Option<string>,
    travelStyle: Option<string>,
    interests: Option<seq<string>>)

  /** The preferences dictionary with no keys: `state.get('preferences', {})` on a state without preferences. */
  const NO_PREFS := Prefs(None, None, None, None, None)

  /** The values a state holds: the preferences dictionary, a text, or a list of link records. */
  datatype Value = VPrefs(prefs: Prefs) | VText(text: string) | VLinks(links: seq<LinkRecord>)

  type State = map<string, Value>

  const PREFERENCES := "preferences"
  const ITINERARY := "itinerary"
  const WEATHER_FORECAST := "weather_forecast"
  const ACTIVITY_SUGGESTIONS := "activity_suggestions"
  const USEFUL_LINKS := "useful_links"
  const FOOD_CULTURE_INFO := "food_culture_info"

  /** The key a tool adds to its result when it caught an exception. */
  const WARNING := "warning"

  /** The five output fields, in the order the route's response lists them. */
  const OUTPUT_FIELDS: seq<string> :=
    [ITINERARY, WEATHER_FORECAST, ACTIVITY_SUGGESTIONS, USEFUL_LINKS, FOOD_CULTURE_INFO]

  /** The four output fields that hold text. */
  const TEXT_FIELDS: set<string> :=
    {ITINERARY, WEATHER_FORECAST, ACTIVITY_SUGGESTIONS, FOOD_CULTURE_INFO}

  /** The five output fields, as a set. */
  const OUTPUT_KEYS: set<string> := TEXT_FIELDS + {USEFUL_LINKS}

  /** The six fields `TripState` declares. */
  const TRIP_FIELDS: set<string> := OUTPUT_KEYS + {PREFERENCES}

  /** Python's `d.get(key, default)`. */
  function Get<K, V>(d: map<K, V>, key: K, default: V): V {
    if key in d then d[key] else default
  }

  /** A state holding every field `TripState` declares. */
  predicate HasTripFields(s: State) {
    TRIP_FIELDS <= s.Keys
  }

  /**
   * The output fields of `s` hold values of their declared types: text for the four
   * text fields, and a list of at most five links for `useful_links`.
   */
  predicate OutputsWellTyped(s: State) {
    && (forall f :: f in TEXT_FIELDS && f in s ==> s[f].VText?)
    && (USEFUL_LINKS in s ==> s[USEFUL_LINKS].VLinks? && |s[USEFUL_LINKS].links| <= 5)
  }
}
