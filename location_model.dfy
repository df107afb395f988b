// The location screen's model: the same status transitions as the
// main-home location service, plus the address and detail shown for the map
// centre and the remembered recent location.
module LocationModels {
  import opened Wrappers
  import opened LocationManagers
  import Text

  /** A coordinate pair. Building one from a coordinate and an address drops
    * the address. */
  datatype GeoLocation = GeoLocation(longitude: int, latitude: int)

  datatype Location = Location(nickname: string, fullAddress: string, geoLocation: GeoLocation)

  datatype AddressDetail = AddressDetail(address: string, detail: string)

  const AddressLoadingText := "주소를 불러오는 중..."
  const AddressFailedText := "주소를 불러올 수 없습니다."

  /** The default recent location before any is saved or loaded; its
    * coordinates are integer stand-ins. */
  const DefaultRecentLocation := Location("창동 씨드큐브", "서울특별시 도봉구 창동 123-45", GeoLocation(127, 37))

  /** `reverseGeocodeWithDetail`: the address line and the placemark's
    * name as the detail, or an empty detail when it has no name. */
  function ReverseGeocodeWithDetail(answer: GeocodeAnswer): (r: Result<AddressDetail, LocationError>)
    ensures r.Err? <==> ReverseGeocode(answer).Err?
    ensures r.Err? ==> r.error == ReverseGeocode(answer).error
    ensures r.Ok? ==> r.value.address == ReverseGeocode(answer).value
    ensures r.Ok? ==> r.value.detail == (if answer.placemark.name.Some? then answer.placemark.name.value else "")
  {
    match answer
    case GeocoderFailed(description) => Err(GeocodingFailed(description))
    case NoPlacemark => Err(GeocodingFailed(NoPlacemarkReason))
    case Found(p) => Ok(AddressDetail(FormatAddress(p), p.name.UnwrapOr("")))
  }

  /** Without address components both lines show the placemark's name, or
    * empty text when it has none; with components the address line is
    * those components joined and the detail is still the name. */
  lemma PlacemarkLines(p: Placemark)
    ensures AddressComponents(p) == [] ==>
      ReverseGeocodeWithDetail(Found(p)) == Ok(AddressDetail(p.name.UnwrapOr(""), p.name.UnwrapOr("")))
    ensures AddressComponents(p) != [] ==>
      ReverseGeocodeWithDetail(Found(p)) == Ok(AddressDetail(Text.Join(AddressComponents(p), ", "), p.name.UnwrapOr("")))
  {
  }

  class LocationModel {
    var status: LocationStatus
    var currentLocation: Option<GeoLocation>
    var waiting: bool
    var address: string
    var detail: string
    var recentLocation: Location

    function State(): Tracking
      reads this
    {
      Tracking(status, waiting)
    }

    constructor(auth: AuthorizationStatus)
      ensures State() == Tracking(StatusFrom(auth), false) && currentLocation.None?
      ensures address == AddressLoadingText && detail == "" && recentLocation == DefaultRecentLocation
    {
      status := StatusFrom(auth);
      currentLocation := None;
      waiting := false;
      address := AddressLoadingText;
      detail := "";
      recentLocation := DefaultRecentLocation;
    }

    method RequestLocation(auth: AuthorizationStatus) returns (thrown: Option<LocationError>)
      modifies this
      ensures State() == RequestStarted(old(State()), auth)
      ensures thrown.Some? <==> StatusFrom(auth) != Authorized
      ensures thrown.Some? ==> thrown.value == PermissionDenied
      ensures currentLocation == old(currentLocation) && address == old(address) && detail == old(detail)
      ensures recentLocation == old(recentLocation)
    {
      status := StatusFrom(auth);
      if status != Authorized {
        return Some(PermissionDenied);
      }
      waiting := true;
      status := Updating;
      thrown := None;
    }

    method TimeoutFired() returns (timedOut: bool)
      modifies this
      ensures State() == TimedOut(old(State()))
      ensures timedOut <==> old(status) == Updating && old(waiting)
      ensures currentLocation == old(currentLocation) && address == old(address) && detail == old(detail)
      ensures recentLocation == old(recentLocation)
    {
      timedOut := false;
      if status == Updating {
        timedOut := waiting;
        waiting := false;
        status := Error(Timeout);
      }
    }

    method StartUpdatingLocation(auth: AuthorizationStatus)
      modifies this
      ensures State() == UpdatesStarted(old(State()), auth)
      ensures currentLocation == old(currentLocation) && address == old(address) && detail == old(detail)
      ensures recentLocation == old(recentLocation)
    {
      status := StatusFrom(auth);
      if status != Authorized {
        status := Error(PermissionDenied);
        return;
      }
      status := Updating;
    }

    method StopUpdatingLocation()
      modifies this
      ensures State() == UpdatesStopped(old(State()))
      ensures currentLocation == old(currentLocation) && address == old(address) && detail == old(detail)
      ensures recentLocation == old(recentLocation)
    {
      if status == Updating {
        status := Authorized;
      }
    }

    /** A change of authorisation only replaces the status. */
    method DidChangeAuthorization(auth: AuthorizationStatus)
      modifies this
      ensures State() == Tracking(StatusFrom(auth), old(waiting))
      ensures currentLocation == old(currentLocation) && address == old(address) && detail == old(detail)
      ensures recentLocation == old(recentLocation)
    {
      status := StatusFrom(auth);
    }

    /** A new fix and the geocoder's answer for it; on success the kept
      * location has only the coordinates. */
    method DidUpdateLocation(longitude: int, latitude: int, geocoded: GeocodeAnswer)
      modifies this
      ensures ReverseGeocode(geocoded).Ok? ==>
        State() == Located(old(State())) && currentLocation == Some(GeoLocation(longitude, latitude))
      ensures ReverseGeocode(geocoded).Err? ==>
        State() == Failed(old(State()), ErrorFrom(AppError(ReverseGeocode(geocoded).error)))
        && currentLocation == old(currentLocation)
      ensures address == old(address) && detail == old(detail) && recentLocation == old(recentLocation)
    {
      var result := ReverseGeocode(geocoded);
      match result {
        case Ok(_) =>
          currentLocation := Some(GeoLocation(longitude, latitude));
          status := Authorized;
        case Err(e) =>
          status := Error(ErrorFrom(AppError(e)));
      }
      waiting := false;
    }

    method DidFail(error: RaisedError)
      modifies this
      ensures State() == Failed(old(State()), ErrorFrom(error))
      ensures currentLocation == old(currentLocation) && address == old(address) && detail == old(detail)
      ensures recentLocation == old(recentLocation)
    {
      status := Error(ErrorFrom(error));
      waiting := false;
    }

    /** The map centre settled and was geocoded: both lines are replaced,
      * with a fixed text and no detail on failure. */
    method RegionGeocoded(answer: GeocodeAnswer)
      modifies this
      ensures ReverseGeocodeWithDetail(answer).Ok? ==>
        address == ReverseGeocodeWithDetail(answer).value.address && detail == ReverseGeocodeWithDetail(answer).value.detail
      ensures ReverseGeocodeWithDetail(answer).Err? ==> address == AddressFailedText && detail == ""
      ensures State() == old(State()) && currentLocation == old(currentLocation) && recentLocation == old(recentLocation)
    {
      match ReverseGeocodeWithDetail(answer) {
        case Ok(found) =>
          address := found.address;
          detail := found.detail;
        case Err(_) =>
          address := AddressFailedText;
          detail := "";
      }
    }

    /** Saving remembers the location only when it could be encoded for
      * storage. */
    method SaveRecentLocation(nickname: string, fullAddress: string, geoLocation: GeoLocation, encoded: bool)
      modifies this
      ensures recentLocation == if encoded then Location(nickname, fullAddress, geoLocation) else old(recentLocation)
      ensures State() == old(State()) && currentLocation == old(currentLocation)
      ensures address == old(address) && detail == old(detail)
    {
      if encoded {
        recentLocation := Location(nickname, fullAddress, geoLocation);
      }
    }

    /** Loading takes the stored location when one could be read back. */
    method LoadRecentLocation(stored: Option<Location>)
      modifies this
      ensures recentLocation == if stored.Some? then stored.value else old(recentLocation)
      ensures State() == old(State()) && currentLocation == old(currentLocation)
      ensures address == old(address) && detail == old(detail)
    {
      if stored.Some? {
        recentLocation := stored.value;
      }
    }

    function GetErrorIfAny(): (e: Option<LocationError>)
      reads this
      ensures e == ErrorIfAny(status)
    {
      ErrorIfAny(status)
    }

    /** Always the waiting text, whatever the state. */
    function CurrentAddress(): (a: string)
      ensures a == CurrentAddressPlaceholder
    {
      CurrentAddressPlaceholder
    }
  }
}
