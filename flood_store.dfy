/**
 * The flood-data store of frontend/src/stores/floodStore.js. `fetchFloodRisk`
 * is a guard, then a loading step that issues the request, then a success or
 * failure step when the answer arrives; the answer is an input here.
 */
module FloodStore {
  import opened Wrappers
  import MapStore

  const MissingRangeMessage := "Please select a date range"
  const FetchFailedMessage := "Failed to fetch flood risk data"

  /** JavaScript truthiness of an optional string: present and non-empty. */
  predicate Truthy(s: Option<string>)
  {
    s.Some? && s.value != []
  }

  /** What the assessment call sends. */
  datatype Request = Request(latitude: real, longitude: real, startDate: string, endDate: string)

  /** How the assessment call ends: the response body, or an error with the server's `detail`, if any. */
  datatype Outcome = Success(data: string) | Failure(detail: Option<string>)

  /** `error.response?.data?.detail || 'Failed to fetch flood risk data'`. */
  function ErrorMessage(detail: Option<string>): (message: string)
    ensures message != []
    ensures Truthy(detail) ==> message == detail.value
    ensures !Truthy(detail) ==> message == FetchFailedMessage
  {
    if Truthy(detail) then detail.value else FetchFailedMessage
  }

  class Store {
    var floodData: Option<string>
    var loading: bool
    var error: Option<string>
    var location: (real, real)
    var dateRange: (Option<string>, Option<string>)

    /** The initial state. */
    constructor (envLat: Option<real>, envLon: Option<real>)
      ensures floodData == None && !loading && error == None
      ensures location == (MapStore.EnvOr(envLat, MapStore.DefaultLatitude), MapStore.EnvOr(envLon, MapStore.DefaultLongitude))
      ensures dateRange == (None, None)
    {
      floodData := None;
      loading := false;
      error := None;
      location := (MapStore.EnvOr(envLat, MapStore.DefaultLatitude), MapStore.EnvOr(envLon, MapStore.DefaultLongitude));
      dateRange := (None, None);
    }

    method SetLocation(latitude: real, longitude: real)
      modifies this
      ensures location == (latitude, longitude)
      ensures floodData == old(floodData) && loading == old(loading)
      ensures error == old(error) && dateRange == old(dateRange)
    {
      location := (latitude, longitude);
    }

    method SetDateRange(startDate: Option<string>, endDate: Option<string>)
      modifies this
      ensures dateRange == (startDate, endDate)
      ensures floodData == old(floodData) && loading == old(loading)
      ensures error == old(error) && location == old(location)
    {
      dateRange := (startDate, endDate);
    }

    /**
     * The synchronous part of `fetchFloodRisk`: without both dates, only the
     * error is set and no request is made; otherwise loading starts, the error
     * is cleared and the request for the store's location and dates is issued.
     */
    method BeginFetch() returns (request: Option<Request>)
      modifies this
      ensures request.Some? <==> Truthy(old(dateRange).0) && Truthy(old(dateRange).1)
      ensures request.None? ==> error == Some(MissingRangeMessage) && loading == old(loading)
      ensures request.Some? ==> loading && error == None
      ensures request.Some? ==> request.value == Request(old(location).0, old(location).1, old(dateRange).0.value, old(dateRange).1.value)
      ensures floodData == old(floodData) && location == old(location) && dateRange == old(dateRange)
    {
      if !Truthy(dateRange.0) || !Truthy(dateRange.1) {
        error := Some(MissingRangeMessage);
        return None;
      }
      loading, error := true, None;
      request := Some(Request(location.0, location.1, dateRange.0.value, dateRange.1.value));
    }

    /**
     * The step after the request: the data on success, the error message on
     * failure (the previous data stays); loading ends either way.
     */
    method FinishFetch(outcome: Outcome)
      modifies this
      ensures !loading
      ensures outcome.Success? ==> floodData == Some(outcome.data) && error == old(error)
      ensures outcome.Failure? ==> error == Some(ErrorMessage(outcome.detail)) && floodData == old(floodData)
      ensures location == old(location) && dateRange == old(dateRange)
    {
      match outcome
      case Success(data) =>
        floodData, loading := Some(data), false;
      case Failure(detail) =>
        error, loading := Some(ErrorMessage(detail)), false;
    }

    /** The whole of `fetchFloodRisk` for a given answer. */
    method FetchFloodRisk(outcome: Outcome) returns (request: Option<Request>)
      modifies this
      ensures request.None? <==> !Truthy(old(dateRange).0) || !Truthy(old(dateRange).1)
      ensures request.None? ==> error == Some(MissingRangeMessage) && loading == old(loading) && floodData == old(floodData)
      ensures request.Some? ==> !loading
      ensures request.Some? && outcome.Success? ==> floodData == Some(outcome.data) && error == None
      ensures request.Some? && outcome.Failure? ==> floodData == old(floodData) && error == Some(ErrorMessage(outcome.detail))
      ensures location == old(location) && dateRange == old(dateRange)
    {
      request := BeginFetch();
      if request.Some? {
        FinishFetch(outcome);
      }
    }

    method ClearFloodData()
      modifies this
      ensures floodData == None && error == None
      ensures loading == old(loading) && location == old(location) && dateRange == old(dateRange)
    {
      floodData, error := None, None;
    }

    /** Back to the initial state for the same configuration. */
    method Reset(envLat: Option<real>, envLon: Option<real>)
      modifies this
      ensures floodData == None && !loading && error == None
      ensures location == (MapStore.EnvOr(envLat, MapStore.DefaultLatitude), MapStore.EnvOr(envLon, MapStore.DefaultLongitude))
      ensures dateRange == (None, None)
    {
      floodData, loading, error := None, false, None;
      location := (MapStore.EnvOr(envLat, MapStore.DefaultLatitude), MapStore.EnvOr(envLon, MapStore.DefaultLongitude));
      dateRange := (None, None);
    }
  }
}
