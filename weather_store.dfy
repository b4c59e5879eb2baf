/**
 * The weather store: five fields and six actions. Each asynchronous action
 * (`searchCity`, `selectLocation`) is split at its `await` into a start method,
 * which does the synchronous update and says whether a request goes out, and a
 * completion method, which takes the gateway's outcome as a parameter.
 */
module WeatherStore {
  import opened Wrappers
  import opened Text
  import opened WeatherTypes
  import opened WeatherApi

  /** The store's five fields as one value. */
  datatype StoreState = StoreState(
    weather: Option<WeatherSnapshot>,
    locations: seq<GeoLocation>,
    selectedDay: Option<DaySummary>,
    isLoading: bool,
    error: Option<string>)

  /** `inititialState`: no weather, no locations, no selection, idle, no error. */
  const InitialState := StoreState(None, [], None, false, None)

  const SearchFallbackMessage := "Failed to search locations."
  const FetchFallbackMessage := "Failed to fetch weather."

  /** `err instanceof Error ? err.message : fallback`. */
  function ErrorMessage(thrown: Thrown, fallback: string): (message: string)
    ensures thrown.ErrorObject? ==> message == thrown.message
    ensures thrown.NonErrorValue? ==> message == fallback
  {
    match thrown
    case ErrorObject(message) => message
    case NonErrorValue => fallback
  }

  /** The call `selectLocation` makes: `getWeather(latitude, longitude, name)`. */
  datatype WeatherRequest = WeatherRequest(latitude: real, longitude: real, locationName: string)

  /** `${location.name}, ${location.country}`. */
  function LocationName(location: GeoLocation): (s: string)
    ensures |s| == |location.name| + 2 + |location.country|
    ensures s[..|location.name|] == location.name
    ensures s[|location.name|..] == ", " + location.country
  {
    location.name + ", " + location.country
  }

  /** The place the geolocation hook builds: id 0, "Current Location", no country. */
  function CurrentLocation(latitude: real, longitude: real): GeoLocation
  {
    GeoLocation(0, "Current Location", "", latitude, longitude)
  }

  /** For the geolocated place, the name handed to the gateway ends in a dangling ", ". */
  lemma CurrentLocationName(latitude: real, longitude: real)
    ensures LocationName(CurrentLocation(latitude, longitude)) == "Current Location, "
  {
  }

  class Store {
    var weather: Option<WeatherSnapshot>
    var locations: seq<GeoLocation>
    var selectedDay: Option<DaySummary>
    var isLoading: bool
    var error: Option<string>

    function State(): StoreState
      reads this
    {
      StoreState(weather, locations, selectedDay, isLoading, error)
    }

    /** The spinner and the error banner are never up together. */
    ghost predicate Valid()
      reads this
    {
      isLoading ==> error.None?
    }

    constructor ()
      ensures Valid() && State() == InitialState
    {
      weather, locations, selectedDay, isLoading, error := None, [], None, false, None;
    }

    /**
     * `searchCity(query)` up to its `await`. A blank query empties `locations`
     * and issues no request; otherwise the store starts loading and clears the
     * error, and `pending` says a search is in flight.
     */
    method SearchCity(query: string) returns (pending: bool)
      requires Valid()
      modifies this
      ensures Valid()
      ensures pending <==> !IsBlank(query)
      ensures !pending ==> State() == old(State()).(locations := [])
      ensures pending ==> State() == old(State()).(isLoading := true, error := None)
    {
      if IsBlank(query) {
        locations := [];
        return false;
      }
      isLoading, error := true, None;
      return true;
    }

    /** `searchCity` after its `await`: install the results, or report the failure and keep the old list. */
    method CompleteSearchCity(outcome: Result<seq<GeoLocation>, Thrown>)
      requires Valid()
      modifies this
      ensures Valid()
      ensures outcome.Ok? ==> State() == old(State()).(locations := outcome.value, isLoading := false)
      ensures outcome.Err? ==>
        State() == old(State()).(error := Some(ErrorMessage(outcome.error, SearchFallbackMessage)), isLoading := false)
    {
      match outcome
      case Ok(found) =>
        locations, isLoading := found, false;
      case Err(thrown) =>
        error, isLoading := Some(ErrorMessage(thrown, SearchFallbackMessage)), false;
    }

    /**
     * `selectLocation(location)` up to its `await`: start loading, clear the
     * error and close the dropdown; `request` is the gateway call it makes.
     */
    method SelectLocation(location: GeoLocation) returns (request: WeatherRequest)
      requires Valid()
      modifies this
      ensures Valid()
      ensures State() == old(State()).(isLoading := true, error := None, locations := [])
      ensures request == WeatherRequest(location.latitude, location.longitude, LocationName(location))
    {
      isLoading, error, locations := true, None, [];
      request := WeatherRequest(location.latitude, location.longitude, LocationName(location));
    }

    /**
     * `selectLocation` after its `await`: install the new weather and clear the
     * day selection; on failure report it and keep the weather and selection shown.
     */
    method CompleteSelectLocation(outcome: Result<WeatherSnapshot, Thrown>)
      requires Valid()
      modifies this
      ensures Valid()
      ensures outcome.Ok? ==>
        State() == old(State()).(weather := Some(outcome.value), isLoading := false, selectedDay := None)
      ensures outcome.Err? ==>
        State() == old(State()).(error := Some(ErrorMessage(outcome.error, FetchFallbackMessage)), isLoading := false)
    {
      match outcome
      case Ok(fetched) =>
        weather, isLoading, selectedDay := Some(fetched), false, None;
      case Err(thrown) =>
        error, isLoading := Some(ErrorMessage(thrown, FetchFallbackMessage)), false;
    }

    /** `selectDay(day)`: only the selection changes. */
    method SelectDay(day: Option<DaySummary>)
      requires Valid()
      modifies this
      ensures Valid()
      ensures State() == old(State()).(selectedDay := day)
    {
      selectedDay := day;
    }

    /** `clearLocations()`: only the list changes. */
    method ClearLocations()
      requires Valid()
      modifies this
      ensures Valid()
      ensures State() == old(State()).(locations := [])
    {
      locations := [];
    }

    /** `clearError()`: only the error changes. */
    method ClearError()
      requires Valid()
      modifies this
      ensures Valid()
      ensures State() == old(State()).(error := None)
    {
      error := None;
    }

    /** `reset()`: back to the initial state, whatever the state was, so a second reset changes nothing. */
    method Reset()
      modifies this
      ensures Valid() && State() == InitialState
    {
      weather, locations, selectedDay, isLoading, error := None, [], None, false, None;
    }
  }
}
