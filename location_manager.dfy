// Location services: how system errors and authorisation values become the
// app's own error and status values, the status transitions of a location
// request and of continuous updates, and how a placemark is turned into an
// address line. Coordinates are integer stand-ins for the system's
// floating-point degrees.
module LocationManagers {
  import opened Wrappers
  import Text

  datatype LocationError =
    | PermissionDenied
    | LocationUnknown
    | NetworkError
    | GeocodingFailed(reason: string)
    | Timeout
    | SystemError(message: string)

  datatype LocationStatus = Undetermined | Denied | Restricted | Authorized | Updating | Error(error: LocationError)

  /** The system's error codes, as far as the mapping tells them apart. */
  datatype CoreLocationCode =
    | DeniedCode
    | LocationUnknownCode
    | NetworkCode
    | GeocodeCanceled
    | GeocodeFoundNoResult
    | GeocodeFoundPartialResult
    | OtherCode(code: int)

  /** An error as it reaches the mapping: one of the app's own, a system
    * location error, or anything else; each with its description text. */
  datatype RaisedError =
    | AppError(locationError: LocationError)
    | CoreLocationError(code: CoreLocationCode, description: string)
    | OtherError(description: string)

  datatype AuthorizationStatus = NotDetermined | AuthDenied | AuthRestricted | AuthorizedAlways | AuthorizedWhenInUse | UnknownAuthorization

  const GeocodeFailedPrefix := "주소 변환에 실패했습니다: "
  const SystemErrorPrefix := "시스템 오류: "
  const NoPlacemarkReason := "주소를 찾을 수 없습니다."

  /** `LocationError.from`: the app's own errors pass through, the system's
    * codes map one to one or to a geocoding failure, and everything else
    * becomes a system error with its description. */
  function ErrorFrom(e: RaisedError): (r: LocationError)
    ensures e.AppError? ==> r == e.locationError
    ensures e.CoreLocationError? && e.code.DeniedCode? ==> r == PermissionDenied
    ensures e.CoreLocationError? && e.code.LocationUnknownCode? ==> r == LocationUnknown
    ensures e.CoreLocationError? && e.code.NetworkCode? ==> r == NetworkError
    ensures e.CoreLocationError? && (e.code.GeocodeCanceled? || e.code.GeocodeFoundNoResult? || e.code.GeocodeFoundPartialResult?) ==>
      r == GeocodingFailed(e.description)
    ensures e.CoreLocationError? && e.code.OtherCode? ==> r == SystemError(e.description)
    ensures e.OtherError? ==> r == SystemError(e.description)
  {
    match e
    case AppError(le) => le
    case CoreLocationError(code, description) =>
      (match code
       case DeniedCode => PermissionDenied
       case LocationUnknownCode => LocationUnknown
       case NetworkCode => NetworkError
       case GeocodeCanceled => GeocodingFailed(description)
       case GeocodeFoundNoResult => GeocodingFailed(description)
       case GeocodeFoundPartialResult => GeocodingFailed(description)
       case OtherCode(_) => SystemError(description))
    case OtherError(description) => SystemError(description)
  }

  /** Mapping an already mapped error again changes nothing. */
  lemma ErrorFromIsIdempotent(e: RaisedError)
    ensures ErrorFrom(AppError(ErrorFrom(e))) == ErrorFrom(e)
  {
  }

  /** `LocationStatus.from`: never yields `updating` or an error. */
  function StatusFrom(a: AuthorizationStatus): (s: LocationStatus)
    ensures s == Authorized <==> a.AuthorizedAlways? || a.AuthorizedWhenInUse?
    ensures s == Undetermined <==> a.NotDetermined? || a.UnknownAuthorization?
    ensures s == Denied <==> a.AuthDenied?
    ensures s == Restricted <==> a.AuthRestricted?
  {
    match a
    case NotDetermined => Undetermined
    case AuthDenied => Denied
    case AuthRestricted => Restricted
    case AuthorizedAlways => Authorized
    case AuthorizedWhenInUse => Authorized
    case UnknownAuthorization => Undetermined
  }

  function ErrorDescription(e: LocationError): (d: string)
    ensures e.GeocodingFailed? ==> d == GeocodeFailedPrefix + e.reason
    ensures e.SystemError? ==> d == SystemErrorPrefix + e.message
  {
    match e
    case PermissionDenied => "위치 접근 권한이 없습니다. 설정에서 권한을 허용해주세요."
    case LocationUnknown => "현재 위치를 확인할 수 없습니다."
    case NetworkError => "네트워크 연결 문제로 위치를 가져올 수 없습니다."
    case GeocodingFailed(reason) => GeocodeFailedPrefix + reason
    case Timeout => "위치 정보를 가져오는데 시간이 너무 오래 걸립니다."
    case SystemError(message) => SystemErrorPrefix + message
  }

  /** The status line shown to the user; an error shows its description. */
  function StatusMessage(s: LocationStatus): (m: string)
    ensures s.Error? ==> m == ErrorDescription(s.error)
  {
    match s
    case Undetermined => "위치 권한이 필요합니다."
    case Denied => "위치 권한이 거부되었습니다. 설정에서 권한을 허용해주세요."
    case Restricted => "위치 서비스가 제한되었습니다."
    case Authorized => "위치 권한이 허용되었습니다."
    case Updating => "위치를 업데이트하는 중..."
    case Error(e) => ErrorDescription(e)
  }

  /** Geocoding failures keep their reason and system errors their
    * message: two different reasons give two different lines. */
  lemma ErrorDescriptionKeepsDetail(r1: string, r2: string)
    ensures StatusMessage(Error(GeocodingFailed(r1))) == StatusMessage(Error(GeocodingFailed(r2))) ==> r1 == r2
    ensures StatusMessage(Error(SystemError(r1))) == StatusMessage(Error(SystemError(r2))) ==> r1 == r2
  {
    if StatusMessage(Error(GeocodingFailed(r1))) == StatusMessage(Error(GeocodingFailed(r2))) {
      Text.CancelAffixes(GeocodeFailedPrefix, r1, r2, "");
    }
    if StatusMessage(Error(SystemError(r1))) == StatusMessage(Error(SystemError(r2))) {
      Text.CancelAffixes(SystemErrorPrefix, r1, r2, "");
    }
  }

  /** `getErrorIfAny`. */
  function ErrorIfAny(s: LocationStatus): (e: Option<LocationError>)
    ensures e.Some? <==> s.Error?
    ensures e.Some? ==> s == Error(e.value)
  {
    if s.Error? then Some(s.error) else None
  }

  /** The parts of a placemark the address line is made of. */
  datatype Placemark = Placemark(
    administrativeArea: Option<string>,
    locality: Option<string>,
    subLocality: Option<string>,
    thoroughfare: Option<string>,
    name: Option<string>)

  function Present(o: Option<string>): seq<string>
  {
    if o.Some? then [o.value] else []
  }

  /** The present components, from the widest area to the street. */
  function AddressComponents(p: Placemark): (parts: seq<string>)
    ensures |parts| <= 4
    ensures parts == [] <==> p.administrativeArea.None? && p.locality.None? && p.subLocality.None? && p.thoroughfare.None?
  {
    Present(p.administrativeArea) + Present(p.locality) + Present(p.subLocality) + Present(p.thoroughfare)
  }

  /** The present components joined with ", "; a placemark with none of
    * them gives its name when it has one. */
  function FormatAddress(p: Placemark): (s: string)
    ensures AddressComponents(p) == [] && p.name.Some? ==> s == p.name.value
    ensures AddressComponents(p) == [] && p.name.None? ==> s == ""
    ensures AddressComponents(p) != [] ==> s == Text.Join(AddressComponents(p), ", ")
  {
    var parts := AddressComponents(p);
    if parts == [] && p.name.Some? then p.name.value else Text.Join(parts, ", ")
  }

  /** A full placemark reads widest area first, and the name is not used. */
  lemma FormatFullAddress(area: string, city: string, district: string, street: string, name: Option<string>)
    ensures FormatAddress(Placemark(Some(area), Some(city), Some(district), Some(street), name))
      == area + ", " + city + ", " + district + ", " + street
  {
    var parts := [area, city, district, street];
    assert AddressComponents(Placemark(Some(area), Some(city), Some(district), Some(street), name)) == parts;
    assert parts[1..] == [city, district, street];
    assert parts[1..][1..] == [district, street];
    assert [district, street][1..] == [street];
    assert Text.Join([district, street], ", ") == district + ", " + street;
    assert Text.Join([city, district, street], ", ") == city + ", " + (district + ", " + street);
    assert Text.Join(parts, ", ") == area + ", " + (city + ", " + (district + ", " + street));
  }

  /** A missing component is skipped without leaving an empty slot. */
  lemma FormatSkipsMissing(area: string, street: string, name: Option<string>)
    ensures FormatAddress(Placemark(Some(area), None, None, Some(street), name)) == area + ", " + street
  {
    assert AddressComponents(Placemark(Some(area), None, None, Some(street), name)) == [area, street];
    assert [area, street][1..] == [street];
  }

  /** The answer `reverseGeocode` gives callers: the geocoder's error or an
    * empty result become geocoding failures. */
  datatype GeocodeAnswer = GeocoderFailed(description: string) | NoPlacemark | Found(placemark: Placemark)

  function ReverseGeocode(answer: GeocodeAnswer): (r: Result<string, LocationError>)
    ensures answer.GeocoderFailed? ==> r == Err(GeocodingFailed(answer.description))
    ensures answer.NoPlacemark? ==> r == Err(GeocodingFailed(NoPlacemarkReason))
    ensures answer.Found? ==> r == Ok(FormatAddress(answer.placemark))
  {
    match answer
    case GeocoderFailed(description) => Err(GeocodingFailed(description))
    case NoPlacemark => Err(GeocodingFailed(NoPlacemarkReason))
    case Found(p) => Ok(FormatAddress(p))
  }

  /** The status and whether a one-shot request still waits for its
    * answer: the part of a location service's state that its transitions
    * change. */
  datatype Tracking = Tracking(status: LocationStatus, waiting: bool)

  /** `requestLocation`: refused unless authorised, else updating with the
    * caller waiting. */
  function RequestStarted(t: Tracking, auth: AuthorizationStatus): (r: Tracking)
    ensures StatusFrom(auth) != Authorized ==> r == Tracking(StatusFrom(auth), t.waiting)
    ensures StatusFrom(auth) == Authorized ==> r == Tracking(Updating, true)
  {
    if StatusFrom(auth) == Authorized then Tracking(Updating, true) else Tracking(StatusFrom(auth), t.waiting)
  }

  /** The ten-second timer: acts only while still updating. */
  function TimedOut(t: Tracking): (r: Tracking)
    ensures t.status == Updating ==> r == Tracking(Error(Timeout), false)
    ensures t.status != Updating ==> r == t
  {
    if t.status == Updating then Tracking(Error(Timeout), false) else t
  }

  function UpdatesStarted(t: Tracking, auth: AuthorizationStatus): (r: Tracking)
    ensures StatusFrom(auth) != Authorized ==> r == Tracking(Error(PermissionDenied), t.waiting)
    ensures StatusFrom(auth) == Authorized ==> r == Tracking(Updating, t.waiting)
  {
    if StatusFrom(auth) == Authorized then Tracking(Updating, t.waiting) else Tracking(Error(PermissionDenied), t.waiting)
  }

  function UpdatesStopped(t: Tracking): (r: Tracking)
    ensures t.status == Updating ==> r == Tracking(Authorized, t.waiting)
    ensures t.status != Updating ==> r == t
  {
    if t.status == Updating then t.(status := Authorized) else t
  }

  /** A location fix or a failure answers any waiting request. */
  function Located(t: Tracking): Tracking
  {
    Tracking(Authorized, false)
  }

  function Failed(t: Tracking, e: LocationError): Tracking
  {
    Tracking(Error(e), false)
  }

  /** Stopping is idempotent, and after a stop the timer has nothing to
    * do. */
  lemma StopIsIdempotent(t: Tracking)
    ensures UpdatesStopped(UpdatesStopped(t)) == UpdatesStopped(t)
    ensures TimedOut(UpdatesStopped(t)) == UpdatesStopped(t)
  {
  }

  /** An authorised request with no answer before the timer ends in the
    * timeout error with nobody waiting; one answered first is left alone. */
  lemma RequestThenTimeout(t: Tracking, auth: AuthorizationStatus, e: LocationError)
    requires StatusFrom(auth) == Authorized
    ensures TimedOut(RequestStarted(t, auth)) == Tracking(Error(Timeout), false)
    ensures TimedOut(Located(RequestStarted(t, auth))) == Tracking(Authorized, false)
    ensures TimedOut(Failed(RequestStarted(t, auth), e)) == Tracking(Error(e), false)
  {
  }

  /** Start then stop: back to authorised when permitted, else the
    * permission error stays. */
  lemma StartThenStop(t: Tracking, auth: AuthorizationStatus)
    ensures UpdatesStopped(UpdatesStarted(t, auth)).status
      == if StatusFrom(auth) == Authorized then Authorized else Error(PermissionDenied)
  {
  }

  /** One location fix as the manager keeps it. */
  datatype LocationData = LocationData(latitude: int, longitude: int, timestamp: int, address: Option<string>, accuracy: int)

  /** What a waiting request is answered with, when one is waiting. */
  datatype Answer = Delivered(data: LocationData) | Thrown(error: LocationError)

  const CurrentAddressPlaceholder := "위치 정보를 가져오는 중..."

  /** The main-home location service. The authorisation value, the
    * geocoder's answer and the timer are given by the caller. */
  class LocationManager {
    var status: LocationStatus
    var currentLocation: Option<LocationData>
    var waiting: bool

    function State(): Tracking
      reads this
    {
      Tracking(status, waiting)
    }

    constructor(auth: AuthorizationStatus)
      ensures State() == Tracking(StatusFrom(auth), false) && currentLocation.None?
    {
      status := StatusFrom(auth);
      currentLocation := None;
      waiting := false;
    }

    method RequestLocation(auth: AuthorizationStatus) returns (thrown: Option<LocationError>)
      modifies this
      ensures State() == RequestStarted(old(State()), auth)
      ensures thrown.Some? <==> StatusFrom(auth) != Authorized
      ensures thrown.Some? ==> thrown.value == PermissionDenied
      ensures currentLocation == old(currentLocation)
    {
      status := StatusFrom(auth);
      if status != Authorized {
        return Some(PermissionDenied);
      }
      waiting := true;
      status := Updating;
      thrown := None;
    }

    method TimeoutFired() returns (answer: Option<Answer>)
      modifies this
      ensures State() == TimedOut(old(State()))
      ensures answer == (if old(status) == Updating && old(waiting) then Some(Thrown(Timeout)) else None)
      ensures currentLocation == old(currentLocation)
    {
      answer := None;
      if status == Updating {
        if waiting {
          answer := Some(Thrown(Timeout));
        }
        waiting := false;
        status := Error(Timeout);
      }
    }

    method StartUpdatingLocation(auth: AuthorizationStatus)
      modifies this
      ensures State() == UpdatesStarted(old(State()), auth)
      ensures currentLocation == old(currentLocation)
    {
      status := StatusFrom(auth);
      if status != Authorized {
        status := Error(PermissionDenied);
        return;
      }
      status := Updating;
    }

    method StopUpdatingLocation()
      modifies this
      ensures State() == UpdatesStopped(old(State()))
      ensures currentLocation == old(currentLocation)
    {
      if status == Updating {
        status := Authorized;
      }
    }

    method DidChangeAuthorization(auth: AuthorizationStatus)
      modifies this
      ensures State() == Tracking(StatusFrom(auth), old(waiting))
      ensures currentLocation == old(currentLocation)
    {
      status := StatusFrom(auth);
    }

    /** A new fix, and the geocoder's answer for it. */
    method DidUpdateLocation(latitude: int, longitude: int, timestamp: int, accuracy: int, geocoded: GeocodeAnswer)
      returns (answer: Option<Answer>)
      modifies this
      ensures ReverseGeocode(geocoded).Ok? ==>
        var data := LocationData(latitude, longitude, timestamp, Some(ReverseGeocode(geocoded).value), accuracy);
        State() == Located(old(State())) && currentLocation == Some(data)
        && answer == (if old(waiting) then Some(Delivered(data)) else None)
      ensures ReverseGeocode(geocoded).Err? ==>
        State() == Failed(old(State()), ErrorFrom(AppError(ReverseGeocode(geocoded).error)))
        && currentLocation == old(currentLocation)
        && answer == (if old(waiting) then Some(Thrown(ErrorFrom(AppError(ReverseGeocode(geocoded).error)))) else None)
    {
      answer := None;
      var result := ReverseGeocode(geocoded);
      match result {
        case Ok(address) =>
          var data := LocationData(latitude, longitude, timestamp, Some(address), accuracy);
          currentLocation := Some(data);
          status := Authorized;
          if waiting {
            answer := Some(Delivered(data));
            waiting := false;
          }
        case Err(e) =>
          var locationError := ErrorFrom(AppError(e));
          status := Error(locationError);
          if waiting {
            answer := Some(Thrown(locationError));
            waiting := false;
          }
      }
    }

    method DidFail(error: RaisedError) returns (answer: Option<Answer>)
      modifies this
      ensures State() == Failed(old(State()), ErrorFrom(error))
      ensures answer == (if old(waiting) then Some(Thrown(ErrorFrom(error))) else None)
      ensures currentLocation == old(currentLocation)
    {
      var locationError := ErrorFrom(error);
      status := Error(locationError);
      answer := None;
      if waiting {
        answer := Some(Thrown(locationError));
        waiting := false;
      }
    }

    function GetErrorIfAny(): (e: Option<LocationError>)
      reads this
      ensures e == ErrorIfAny(status)
    {
      ErrorIfAny(status)
    }

    /** The fix's address, or a waiting text. */
    function CurrentAddress(): (a: string)
      reads this
      ensures currentLocation.Some? && currentLocation.value.address.Some? ==> a == currentLocation.value.address.value
      ensures currentLocation.None? || currentLocation.value.address.None? ==> a == CurrentAddressPlaceholder
    {
      if currentLocation.Some? && currentLocation.value.address.Some? then currentLocation.value.address.value
      else CurrentAddressPlaceholder
    }
  }
}
