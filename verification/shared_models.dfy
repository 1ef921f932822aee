/**
 * The record both services exchange (`CoordinateItem` in the shared models):
 * an IPv4 address, a latitude in [-90, 90], a longitude in [-180, 180], both
 * bounds inclusive, and an optional city and country that default to None.
 */
module SharedModels {
  import opened Wrappers
  import opened Json
  import IpValidation

  datatype CoordinateItem = CoordinateItem(
    ip: string,
    lat: real,
    lon: real,
    city: Option<string>,
    country: Option<string>)

  /** The `IPField` type: an IPv4 address in dotted-decimal form. */
  predicate IsIPv4Field(ip: string) {
    IpValidation.IsDottedQuad(ip)
  }

  predicate ValidLatitude(lat: real) {
    -90.0 <= lat <= 90.0
  }

  predicate ValidLongitude(lon: real) {
    -180.0 <= lon <= 180.0
  }

  /** The declared field constraints of `CoordinateItem`. */
  predicate Valid(item: CoordinateItem) {
    IsIPv4Field(item.ip) && ValidLatitude(item.lat) && ValidLongitude(item.lon)
  }

  /** The name of the field a failed validation complains about. */
  datatype ValidationError = ValidationError(field: string)

  function OptionalToJson(s: Option<string>): (r: JsonValue) {
    match s
    case None => JNull
    case Some(t) => JString(t)
  }

  /** `item.model_dump()`: every field, with None written as null. */
  function Dump(item: CoordinateItem): (fields: Fields)
    ensures fields.Keys == {"ip", "lat", "lon", "city", "country"}
  {
    map["ip" := JString(item.ip), "lat" := JNumber(item.lat), "lon" := JNumber(item.lon),
        "city" := OptionalToJson(item.city), "country" := OptionalToJson(item.country)]
  }

  /** An `Optional[str] = None` field: absent or null reads as None, a string as itself; anything else is refused. */
  function OptionalText(fields: Fields, name: string): (r: Result<Option<string>, ValidationError>) {
    if name !in fields then Success(None)
    else match fields[name]
      case JNull => Success(None)
      case JString(s) => Success(Some(s))
      case _ => Failure(ValidationError(name))
  }

  /** A required float field with `ge=lo, le=hi`. */
  function BoundedNumber(fields: Fields, name: string, lo: real, hi: real): (r: Result<real, ValidationError>) {
    if name in fields && fields[name].JNumber? && lo <= fields[name].n <= hi then Success(fields[name].n)
    else Failure(ValidationError(name))
  }

  /** `CoordinateItem(**fields)`: the dict checked against the declared fields; extra keys are ignored. */
  function FromFields(fields: Fields): (r: Result<CoordinateItem, ValidationError>)
    ensures r.Success? ==> Valid(r.value)
    ensures r.Success? ==> "ip" in fields && fields["ip"] == JString(r.value.ip)
    ensures r.Success? ==> "lat" in fields && fields["lat"] == JNumber(r.value.lat)
    ensures r.Success? ==> "lon" in fields && fields["lon"] == JNumber(r.value.lon)
  {
    if !("ip" in fields && fields["ip"].JString? && IsIPv4Field(fields["ip"].s)) then
      Failure(ValidationError("ip"))
    else match BoundedNumber(fields, "lat", -90.0, 90.0)
      case Failure(e) => Failure(e)
      case Success(lat) => match BoundedNumber(fields, "lon", -180.0, 180.0)
        case Failure(e) => Failure(e)
        case Success(lon) => match OptionalText(fields, "city")
          case Failure(e) => Failure(e)
          case Success(city) => match OptionalText(fields, "country")
            case Failure(e) => Failure(e)
            case Success(country) => Success(CoordinateItem(fields["ip"].s, lat, lon, city, country))
  }

  /** Dumping a valid item and validating the dump gives the item back. */
  lemma DumpRoundTrip(item: CoordinateItem)
    requires Valid(item)
    ensures FromFields(Dump(item)) == Success(item)
  {
    var f := Dump(item);
    assert OptionalText(f, "city") == Success(item.city) by {
      match item.city { case None => case Some(_) => }
    }
    assert OptionalText(f, "country") == Success(item.country) by {
      match item.country { case None => case Some(_) => }
    }
  }

  /** A latitude outside [-90, 90] or a longitude outside [-180, 180] is refused, whatever the other fields. */
  lemma OutOfRangeRefused(fields: Fields)
    requires "lat" in fields && fields["lat"].JNumber?
    requires "lon" in fields && fields["lon"].JNumber?
    requires !ValidLatitude(fields["lat"].n) || !ValidLongitude(fields["lon"].n)
    ensures FromFields(fields).Failure?
  {
  }

  /** The bounds are inclusive: the poles and the antimeridian are accepted, and city and country may be left out. */
  lemma BoundsInclusive(ip: string, lat: real, lon: real)
    requires IsIPv4Field(ip)
    requires lat == 90.0 || lat == -90.0
    requires lon == 180.0 || lon == -180.0
    ensures FromFields(map["ip" := JString(ip), "lat" := JNumber(lat), "lon" := JNumber(lon)])
            == Success(CoordinateItem(ip, lat, lon, None, None))
  {
  }
}
