/**
 * The store driven the way the UI tests drive it, with the fetch outcomes
 * supplied: search "London" against the mocked geocoding results, pick the
 * first place, select a day, then a failed fetch that leaves the shown
 * weather and the selected day in place.
 */
module StoreScenarios {
  import opened Wrappers
  import opened WeatherTypes
  import opened WeatherApi
  import opened WeatherStore
  import opened MockWeather

  method SearchLondon() returns (store: Store)
    ensures fresh(store) && store.Valid() && store.locations == MockLocations && !store.isLoading && store.error == None
  {
    store := new Store();
    var pending := store.SearchCity("London");
    LondonSearch();
    store.CompleteSearchCity(SearchLocations("London", Response(GeocodingResponseFor(MockLocations))));
  }

  /**
   * Pick the first London entry, fetch `payload`, select tomorrow, then pick the
   * second entry and have its fetch fail: the store keeps the first place's
   * weather and the selected day, and shows the gateway's message. A reset then
   * empties it.
   */
  method SelectThenFail(now: LocalTime, payload: OpenMeteoResponse, statusText: string)
    returns (afterFailure: StoreState, afterReset: StoreState)
    requires DailyAligned(payload.daily) && |payload.daily.time| > TodayIndex + 1
    ensures |Forecast(payload.daily)| > 0
    ensures afterFailure == StoreState(
      Some(TransformAPIResponse(payload, "London, United Kingdom", now)), [],
      Some(Forecast(payload.daily)[0]), false, Some("Weather fetch failed: " + statusText))
    ensures afterReset == InitialState
  {
    var store := SearchLondon();
    var request := store.SelectLocation(store.locations[0]);
    assert request.locationName == "London, United Kingdom";
    var fetched := GetWeather(request.locationName, Response(payload), now);
    store.CompleteSelectLocation(fetched);
    var shown := fetched.value;
    assert shown.locationName == "London, United Kingdom" && store.weather == Some(shown);
    assert store.locations == [] && !store.isLoading && store.error == None && store.selectedDay == None;

    var tomorrow := shown.forecast[0];
    store.SelectDay(Some(tomorrow));

    request := store.SelectLocation(MockLocations[1]);
    store.CompleteSelectLocation(GetWeather(request.locationName, HttpError(statusText), now));
    assert store.error == Some("Weather fetch failed: " + statusText);
    assert store.weather == Some(shown) && store.selectedDay == Some(tomorrow) && !store.isLoading;
    afterFailure := store.State();

    store.Reset();
    afterReset := store.State();
  }
}
