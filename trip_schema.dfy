/**
 * The request and response records of the trip route, with their field defaults.
 * An optional constructor argument left out is `None`; the constructor functions
 * apply the record's default for it.
 */
module TripSchema {
  import opened Outcomes

  const DEFAULT_BUDGET_TYPE := "mid-range"
  const DEFAULT_TRAVEL_STYLE := "cultural"
  const SUCCESS_STATUS := "success"
  const ERROR_STATUS := "error"

  datatype TripPreferences = TripPreferences(
    destination: string,
    month: string,
    budgetType: string,
    travelStyle: string,
    interests: seq<string>)

  /** A request is one preferences record and nothing else. */
  datatype TripRequest = TripRequest(preferences: TripPreferences)

  datatype TripResponse = TripResponse(
    itinerary: string,
    weatherForecast: string,
    activitySuggestions: string,
    usefulLinks: seq<map<string, string>>,
    foodCultureInfo: string,
    status: string,
    message: Option<string>)

  datatype ErrorResponse = ErrorResponse(status: string, message: string, details: Option<string>)

  /**
   * Builds preferences: `destination` and `month` are required, the other three
   * fall back to "mid-range", "cultural" and the empty list.
   */
  function NewTripPreferences(
    destination: string,
    month: string,
    budgetType: Option<string>,
    travelStyle: Option<string>,
    interests: Option<seq<string>>): (p: TripPreferences)
    ensures p.destination == destination && p.month == month
    ensures budgetType.Some? ==> p.budgetType == budgetType.value
    ensures budgetType.None? ==> p.budgetType == DEFAULT_BUDGET_TYPE
    ensures travelStyle.Some? ==> p.travelStyle == travelStyle.value
    ensures travelStyle.None? ==> p.travelStyle == DEFAULT_TRAVEL_STYLE
    ensures interests.Some? ==> p.interests == interests.value
    ensures interests.None? ==> p.interests == []
  {
    TripPreferences(
      destination, month,
      budgetType.GetOr(DEFAULT_BUDGET_TYPE),
      travelStyle.GetOr(DEFAULT_TRAVEL_STYLE),
      interests.GetOr([]))
  }

  /**
   * Builds a response from its five required content fields; `status` falls back
   * to "success" and `message` to `None`.
   */
  function NewTripResponse(
    itinerary: string,
    weatherForecast: string,
    activitySuggestions: string,
    usefulLinks: seq<map<string, string>>,
    foodCultureInfo: string,
    status: Option<string>,
    message: Option<string>): (r: TripResponse)
    ensures r.itinerary == itinerary && r.weatherForecast == weatherForecast
    ensures r.activitySuggestions == activitySuggestions && r.usefulLinks == usefulLinks
    ensures r.foodCultureInfo == foodCultureInfo
    ensures status.Some? ==> r.status == status.value
    ensures status.None? ==> r.status == SUCCESS_STATUS
    ensures r.message == message
  {
    TripResponse(
      itinerary, weatherForecast, activitySuggestions, usefulLinks, foodCultureInfo,
      status.GetOr(SUCCESS_STATUS), message)
  }

  /** Builds an error record: `message` is required, `status` falls back to "error", `details` to `None`. */
  function NewErrorResponse(message: string, status: Option<string>, details: Option<string>): (r: ErrorResponse)
    ensures r.message == message && r.details == details
    ensures status.Some? ==> r.status == status.value
    ensures status.None? ==> r.status == ERROR_STATUS
  {
    ErrorResponse(status.GetOr(ERROR_STATUS), message, details)
  }
}
