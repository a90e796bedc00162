/**
 * The validators of bragi's query parameters: coordinate bounds, the
 * lon/lat pairing rule, place types, zone types and polygon coordinates,
 * plus the two helpers that read parameters back.
 *
 * A JSON number is an integer (`JInt`) or a float (`JFloat`); serde's
 * `is_f64` holds of floats only, so a coordinate written `2` is not
 * accepted where `2.0` is. Floats are modelled as reals.
 */
module BragiParams {
  import opened Common

  /** The two errors a validator reports (valico's `WrongValue` and
      `WrongType`), with the parameter path. */
  datatype ValidationError =
    | WrongValue(path: string, detail: Option<string>)
    | WrongType(path: string, typeDetail: string)

  // ---------------------------------------------------------------------
  // Coordinate bounds

  /** The accepted ranges of the two coordinates. */
  datatype Bounds = Bounds(minLon: real, maxLon: real, minLat: real, maxLat: real)

  /** The bounds as the source declares them: the longitude limited to
      [-90, 90] and the latitude to [-180, 180]. */
  const AsWritten: Bounds := Bounds(-90.0, 90.0, -180.0, 180.0)

  /** The WGS84 ranges the constants' names evidently mean: longitude in
      [-180, 180], latitude in [-90, 90]. */
  const Intended: Bounds := Bounds(-180.0, 180.0, -90.0, 90.0)

  const LonError: string := "lon is not a valid longitude"
  const LatError: string := "lat is not a valid latitude"

  /** `check_bound`, on the value already coerced to a float. */
  function CheckBound(value: real, path: string, min: real, max: real, message: string): (r: Result<(), ValidationError>)
    ensures r.Ok? <==> min <= value <= max
    ensures r.Err? ==> r.error == WrongValue(path, Some(message))
  {
    if min <= value && value <= max then Ok(())
    else Err(WrongValue(path, Some(message)))
  }

  /** The validator of the `lon` parameter. */
  function CheckLon(value: real, path: string, bounds: Bounds): Result<(), ValidationError>
  {
    CheckBound(value, path, bounds.minLon, bounds.maxLon, LonError)
  }

  /** The validator of the `lat` parameter. */
  function CheckLat(value: real, path: string, bounds: Bounds): Result<(), ValidationError>
  {
    CheckBound(value, path, bounds.minLat, bounds.maxLat, LatError)
  }

  /** As written: a longitude passes iff it is in [-90, 90], a latitude iff
      it is in [-180, 180]. */
  lemma AsWrittenRanges(value: real, path: string)
    ensures CheckLon(value, path, AsWritten).Ok? <==> -90.0 <= value <= 90.0
    ensures CheckLat(value, path, AsWritten).Ok? <==> -180.0 <= value <= 180.0
    ensures CheckLon(value, path, AsWritten).Err? ==> CheckLon(value, path, AsWritten).error == WrongValue(path, Some(LonError))
  {
  }

  /** A real place (Shanghai, longitude 121.47) is refused as a query
      longitude by the declared bounds and accepted by the intended ones;
      a latitude of 100, which no place has, is accepted. */
  lemma SwappedBoundsWitness()
    ensures CheckLon(121.47, "lon", AsWritten).Err?
    ensures CheckLon(121.47, "lon", Intended).Ok?
    ensures CheckLat(100.0, "lat", AsWritten).Ok?
    ensures CheckLat(100.0, "lat", Intended).Err?
  {
  }

  /** With the intended bounds, a coordinate passes iff it is a WGS84
      longitude or latitude. */
  lemma IntendedRanges(value: real, path: string)
    ensures CheckLon(value, path, Intended).Ok? <==> -180.0 <= value <= 180.0
    ensures CheckLat(value, path, Intended).Ok? <==> -90.0 <= value <= 90.0
  {
  }

  const PairingError: string := "you need to provide a lon AND a lat if you provide one of them"

  /** The check `coord_param` adds on the whole parameter object: a `lon`
      without a `lat`, or the other way round, is refused. */
  function CheckPairing(params: map<string, Json>, path: string): (r: Result<(), ValidationError>)
    ensures r.Ok? <==> ("lon" in params <==> "lat" in params)
    ensures r.Err? ==> r.error == WrongValue(path, Some(PairingError))
  {
    var hasLon := "lon" in params;
    var hasLat := "lat" in params;
    if hasLon != hasLat then Err(WrongValue(path, Some(PairingError))) else Ok(())
  }

  // ---------------------------------------------------------------------
  // Place types

  /** `Type`: what a `type` filter value names. */
  datatype PlaceType = Zone | House | Poi | StopArea | Street

  const NotAType: string := " is not a valid type"

  /** `Type::from_str`: "city" and "zone" both name zones. */
  function TypeFromStr(s: string): (r: Result<PlaceType, string>)
    ensures r.Err? <==> s !in TypeNames
    ensures r.Err? ==> r.error == s + NotAType
    ensures s == "city" || s == "zone" ==> r == Ok(Zone)
  {
    match s
    case "city" => Ok(Zone)
    case "zone" => Ok(Zone)
    case "house" => Ok(House)
    case "poi" => Ok(Poi)
    case "public_transport:stop_area" => Ok(StopArea)
    case "street" => Ok(Street)
    case _ => Err(s + NotAType)
  }

  /** The six accepted type names. */
  const TypeNames: set<string> := {"city", "zone", "house", "poi", "public_transport:stop_area", "street"}

  /** The name each type is written with in a query. */
  function TypeName(t: PlaceType): string
  {
    match t
    case Zone => "zone"
    case House => "house"
    case Poi => "poi"
    case StopArea => "public_transport:stop_area"
    case Street => "street"
  }

  /** Every type is named by some accepted string, which parses back to it;
      different types are written differently. */
  lemma TypeNameRoundTrip(t: PlaceType, u: PlaceType)
    ensures TypeName(t) in TypeNames
    ensures TypeFromStr(TypeName(t)) == Ok(t)
    ensures TypeName(t) == TypeName(u) ==> t == u
  {
  }

  /** `check_type`: the values are checked in order and the first one that
      is not a type name is reported. */
  function CheckType(types: seq<string>, path: string): (r: Result<(), ValidationError>)
    ensures r.Ok? <==> forall k :: 0 <= k < |types| ==> types[k] in TypeNames
    decreases |types|
  {
    if types == [] then Ok(())
    else match TypeFromStr(types[0])
      case Err(e) => Err(WrongValue(path, Some(e)))
      case Ok(_) => CheckType(types[1..], path)
  }

  /** The error names the first value that is not a type name. */
  lemma {:induction false} CheckTypeFirstBad(types: seq<string>, path: string, k: nat)
    requires k < |types| && types[k] !in TypeNames
    requires forall j :: 0 <= j < k ==> types[j] in TypeNames
    ensures CheckType(types, path) == Err(WrongValue(path, Some(types[k] + NotAType)))
    decreases k
  {
    if k > 0 {
      CheckTypeFirstBad(types[1..], path, k - 1);
    }
  }

  /** The filter test `type=unvalid` and its message. */
  lemma UnvalidType()
    ensures CheckType(["unvalid"], "type") == Err(WrongValue("type", Some("unvalid is not a valid type")))
  {
    assert "unvalid" + NotAType == "unvalid is not a valid type";
    CheckTypeFirstBad(["unvalid"], "type", 0);
  }

  // ---------------------------------------------------------------------
  // Zone types

  /** `ZONE_TYPES`. */
  const ZoneTypes: seq<string> := ["suburb", "city", "state_district", "state", "country_region", "country", "non_admin"]

  const NotAZoneType: string := " does not belong to the valid zone types list: "

  /** `check_zone_type`: accepted iff it is one of the seven zone types;
      the error lists them all. */
  function CheckZoneType(zoneType: string, path: string): (r: Result<(), ValidationError>)
    ensures r.Ok? <==> zoneType in ZoneTypes
    ensures r.Err? ==> r.error == WrongValue(path, Some(zoneType + NotAZoneType + Join(ZoneTypes, ", ")))
  {
    if zoneType in ZoneTypes then Ok(())
    else Err(WrongValue(path, Some(zoneType + NotAZoneType + Join(ZoneTypes, ", "))))
  }

  /** The error's list names every zone type. */
  lemma ZoneTypesListed(zoneType: string, path: string, k: nat)
    requires zoneType !in ZoneTypes && k < |ZoneTypes|
    ensures var d := CheckZoneType(zoneType, path).error.detail.value;
      Contains(d[|zoneType + NotAZoneType|..], ZoneTypes[k])
  {
    var d := CheckZoneType(zoneType, path).error.detail.value;
    assert d[|zoneType + NotAZoneType|..] == Join(ZoneTypes, ", ");
    JoinContainsParts(ZoneTypes, ", ", k);
  }

  // ---------------------------------------------------------------------
  // Polygon coordinates

  /** A `[lon, lat]` pair the shape check accepts: two floats within the
      bounds. */
  predicate GoodPoint(p: Json, bounds: Bounds)
  {
    && p.JArray? && |p.items| == 2
    && p.items[0].JFloat? && p.items[1].JFloat?
    && bounds.minLon <= p.items[0].f <= bounds.maxLon
    && bounds.minLat <= p.items[1].f <= bounds.maxLat
  }

  /** The shape check of one point: not an array, not a pair, then not two
      floats, then the longitude, then the latitude. */
  function CheckPoint(p: Json, path: string, message: string, bounds: Bounds): (r: Result<(), ValidationError>)
    ensures r.Ok? <==> GoodPoint(p, bounds)
    ensures r.Err? ==> r.error == WrongType(path, message) || r.error == WrongValue(path, Some(message))
    ensures r.Err? && p.JArray? && |p.items| != 2 ==> r.error == WrongValue(path, Some(message))
    ensures r.Err? && (!p.JArray? || (|p.items| == 2 && !(p.items[0].JFloat? && p.items[1].JFloat?))) ==>
              r.error == WrongType(path, message)
    ensures r.Err? && p.JArray? && |p.items| == 2 && p.items[0].JFloat? && p.items[1].JFloat? ==>
              r.error == WrongValue(path, Some(message))
  {
    if !p.JArray? then Err(WrongType(path, message))
    else if |p.items| != 2 then Err(WrongValue(path, Some(message)))
    else if !(p.items[0].JFloat? && p.items[1].JFloat?) then Err(WrongType(path, message))
    else if !(bounds.minLon <= p.items[0].f <= bounds.maxLon) then Err(WrongValue(path, Some(message)))
    else if !(bounds.minLat <= p.items[1].f <= bounds.maxLat) then Err(WrongValue(path, Some(message)))
    else Ok(())
  }

  /** The points of one ring, in order, up to the first refused. */
  function CheckPoints(points: seq<Json>, path: string, message: string, bounds: Bounds): (r: Result<(), ValidationError>)
    ensures r.Ok? <==> forall k :: 0 <= k < |points| ==> GoodPoint(points[k], bounds)
    decreases |points|
  {
    if points == [] then Ok(())
    else match CheckPoint(points[0], path, message, bounds)
      case Err(e) => Err(e)
      case Ok(_) => CheckPoints(points[1..], path, message, bounds)
  }

  /** A ring the shape check accepts: a non-empty array of good points. */
  predicate GoodRing(ring: Json, bounds: Bounds)
  {
    ring.JArray? && |ring.items| > 0 && forall k :: 0 <= k < |ring.items| ==> GoodPoint(ring.items[k], bounds)
  }

  /** One ring: an array, non-empty, whose points are checked in order. */
  function CheckRing(ring: Json, path: string, message: string, bounds: Bounds): (r: Result<(), ValidationError>)
    ensures r.Ok? <==> GoodRing(ring, bounds)
    ensures !ring.JArray? ==> r == Err(WrongType(path, message))
    ensures ring == JArray([]) ==> r == Err(WrongValue(path, Some(message)))
  {
    if !ring.JArray? then Err(WrongType(path, message))
    else if ring.items == [] then Err(WrongValue(path, Some(message)))
    else CheckPoints(ring.items, path, message, bounds)
  }

  /** The rings, in order, up to the first refused. */
  function CheckRings(rings: seq<Json>, path: string, message: string, bounds: Bounds): (r: Result<(), ValidationError>)
    ensures r.Ok? <==> forall k :: 0 <= k < |rings| ==> GoodRing(rings[k], bounds)
    decreases |rings|
  {
    if rings == [] then Ok(())
    else match CheckRing(rings[0], path, message, bounds)
      case Err(e) => Err(e)
      case Ok(_) => CheckRings(rings[1..], path, message, bounds)
  }

  /** `check_coordinates`: a non-empty array of non-empty arrays of good
      points is accepted, and nothing else. */
  function CheckCoordinates(value: Json, path: string, message: string, bounds: Bounds): (r: Result<(), ValidationError>)
    ensures r.Ok? <==>
      && value.JArray? && |value.items| > 0
      && forall k :: 0 <= k < |value.items| ==> GoodRing(value.items[k], bounds)
    ensures !value.JArray? ==> r == Err(WrongType(path, message))
    ensures value == JArray([]) ==> r == Err(WrongValue(path, Some(message)))
  {
    if !value.JArray? then Err(WrongType(path, message))
    else if value.items == [] then Err(WrongValue(path, Some(message)))
    else CheckRings(value.items, path, message, bounds)
  }

  /** A refusal is the first bad point's own error. */
  lemma {:induction false} CheckPointsFirstBad(points: seq<Json>, path: string, message: string, bounds: Bounds, k: nat)
    requires k < |points| && !GoodPoint(points[k], bounds)
    requires forall j :: 0 <= j < k ==> GoodPoint(points[j], bounds)
    ensures CheckPoints(points, path, message, bounds) == CheckPoint(points[k], path, message, bounds)
    decreases k
  {
    if k > 0 {
      CheckPointsFirstBad(points[1..], path, message, bounds, k - 1);
    }
  }

  /** A ring with a bad point is refused with that point's error. */
  lemma CheckRingFirstBadPoint(ring: Json, path: string, message: string, bounds: Bounds, k: nat)
    requires ring.JArray? && k < |ring.items| && !GoodPoint(ring.items[k], bounds)
    requires forall j :: 0 <= j < k ==> GoodPoint(ring.items[j], bounds)
    ensures CheckRing(ring, path, message, bounds) == CheckPoint(ring.items[k], path, message, bounds)
  {
    CheckPointsFirstBad(ring.items, path, message, bounds, k);
  }

  /** A refusal is the first bad ring's own error. */
  lemma {:induction false} CheckRingsFirstBad(rings: seq<Json>, path: string, message: string, bounds: Bounds, k: nat)
    requires k < |rings| && !GoodRing(rings[k], bounds)
    requires forall j :: 0 <= j < k ==> GoodRing(rings[j], bounds)
    ensures CheckRings(rings, path, message, bounds) == CheckRing(rings[k], path, message, bounds)
    decreases k
  {
    if k > 0 {
      CheckRingsFirstBad(rings[1..], path, message, bounds, k - 1);
    }
  }

  /** Past the two outer checks, `check_coordinates` returns at the first
      bad ring, with that ring's error. */
  lemma CheckCoordinatesFirstBad(value: Json, path: string, message: string, bounds: Bounds, k: nat)
    requires value.JArray? && k < |value.items| && !GoodRing(value.items[k], bounds)
    requires forall j :: 0 <= j < k ==> GoodRing(value.items[j], bounds)
    ensures CheckCoordinates(value, path, message, bounds) == CheckRing(value.items[k], path, message, bounds)
  {
    CheckRingsFirstBad(value.items, path, message, bounds, k);
  }

  /** `[[[1.0], 5]]`: the first point has one coordinate, so the refusal is
      WrongValue, although the point `5` after it is of the wrong type. */
  lemma ShortPointBeforeWrongType(path: string, message: string)
    ensures CheckCoordinates(JArray([JArray([JArray([JFloat(1.0)]), JInt(5)])]), path, message, AsWritten)
            == Err(WrongValue(path, Some(message)))
  {
    var ring := JArray([JArray([JFloat(1.0)]), JInt(5)]);
    CheckRingFirstBadPoint(ring, path, message, AsWritten, 0);
    CheckCoordinatesFirstBad(JArray([ring]), path, message, AsWritten, 0);
  }

  /** Whatever fails, the error carries the path and the caller's message. */
  lemma {:induction false} CheckRingsErrorShape(rings: seq<Json>, path: string, message: string, bounds: Bounds)
    ensures var r := CheckRings(rings, path, message, bounds);
      r.Err? ==> r.error == WrongType(path, message) || r.error == WrongValue(path, Some(message))
    decreases |rings|
  {
    if rings != [] && rings[0].JArray? && rings[0].items != [] {
      CheckPointsErrorShape(rings[0].items, path, message, bounds);
      if CheckPoints(rings[0].items, path, message, bounds).Ok? {
        CheckRingsErrorShape(rings[1..], path, message, bounds);
      }
    }
  }

  lemma {:induction false} CheckPointsErrorShape(points: seq<Json>, path: string, message: string, bounds: Bounds)
    ensures var r := CheckPoints(points, path, message, bounds);
      r.Err? ==> r.error == WrongType(path, message) || r.error == WrongValue(path, Some(message))
    decreases |points|
  {
    if points != [] && CheckPoint(points[0], path, message, bounds).Ok? {
      CheckPointsErrorShape(points[1..], path, message, bounds);
    }
  }

  /** An integer coordinate is not a float: `[[[2, 48]]]` is refused as the
      wrong type, `[[[2.0, 48.0]]]` accepted. */
  lemma IntegerCoordinatesRefused(path: string, message: string)
    ensures CheckCoordinates(JArray([JArray([JArray([JInt(2), JInt(48)])])]), path, message, AsWritten)
            == Err(WrongType(path, message))
    ensures CheckCoordinates(JArray([JArray([JArray([JFloat(2.0), JFloat(48.0)])])]), path, message, AsWritten).Ok?
  {
    var bad := JArray([JInt(2), JInt(48)]);
    assert [bad][1..] == [];
    var good := JArray([JFloat(2.0), JFloat(48.0)]);
    assert GoodPoint(good, AsWritten);
  }

  // ---------------------------------------------------------------------
  // Reading parameters back

  /** `get_zone_type`: the `zone_type` string, unless it is absent, not a
      string, or empty. */
  function GetZoneType(params: map<string, Json>): (r: Option<string>)
    ensures r.Some? <==> "zone_type" in params && params["zone_type"].JString? && params["zone_type"].s != ""
    ensures r.Some? ==> r.value == params["zone_type"].s
  {
    var zt := if "zone_type" in params && params["zone_type"].JString? then params["zone_type"].s else "";
    if zt == "" then None else Some(zt)
  }

  /** The panic of `as_str().unwrap()` on an element that is not a
      string. */
  const UnwrapPanic: string := "called `Option::unwrap()` on a `None` value"

  /** `get_param_array`: the strings of an array parameter, or nothing when
      the parameter is absent or not an array. An element that is not a
      string panics. */
  function GetParamArray(params: map<string, Json>, name: string): (r: Result<seq<string>, string>)
    ensures (name !in params || !params[name].JArray?) ==> r == Ok([])
    ensures name in params && params[name].JArray? ==>
      (r.Ok? <==> forall k :: 0 <= k < |params[name].items| ==> params[name].items[k].JString?)
    ensures r.Ok? && name in params && params[name].JArray? ==>
      && |r.value| == |params[name].items|
      && forall k :: 0 <= k < |r.value| ==> params[name].items[k] == JString(r.value[k])
    ensures r.Err? ==> r.error == UnwrapPanic
  {
    if name in params && params[name].JArray? then Strings(params[name].items) else Ok([])
  }

  /** The strings of `items`, in order; the first non-string panics. */
  function Strings(items: seq<Json>): (r: Result<seq<string>, string>)
    ensures r.Ok? <==> forall k :: 0 <= k < |items| ==> items[k].JString?
    ensures r.Ok? ==> |r.value| == |items| && forall k :: 0 <= k < |items| ==> items[k] == JString(r.value[k])
    ensures r.Err? ==> r.error == UnwrapPanic
    decreases |items|
  {
    if items == [] then Ok([])
    else if !items[0].JString? then Err(UnwrapPanic)
    else match Strings(items[1..])
      case Err(e) => Err(e)
      case Ok(rest) => Ok([items[0].s] + rest)
  }
}
