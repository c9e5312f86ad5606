/** The record types of the service and `OptimizedRoute.from_dict`, which
    rebuilds a typed route from the untyped dictionary the route agent
    produces. Pydantic's validation is modelled as "the key is present and
    holds a value of the declared kind, or the declared default applies". */
module Schemas {
  import opened Wrappers
  import opened Json

  datatype LocationPoint = LocationPoint(
    id: string,
    name: string,
    lat: real,
    lng: real,
    locationType: string,  // warehouse, port, airport
    capacity: Option<int>,
    status: string)

  datatype DeviceForecast = DeviceForecast(
    model: string,
    quantity: int,
    destination: string,
    priority: string,
    deliveryWindow: string)

  datatype UploadData = UploadData(
    region: string,
    forecastDate: string,
    deviceForecasts: seq<DeviceForecast>,
    constraints: Object)

  datatype RoutePoint = RoutePoint(location: LocationPoint, order: int, estimatedArrival: Option<string>)

  datatype OptimizedRoute = OptimizedRoute(
    id: string,
    points: seq<RoutePoint>,
    totalCost: real,
    totalDistance: real,
    riskScore: real,
    transportMode: string,
    estimatedDuration: string,
    status: string)

  /** KeyError, TypeError (iterating or indexing the wrong kind of value)
      and pydantic's ValidationError. */
  datatype SchemaError = MissingKey(key: string) | NotIterable | NotAMapping | Invalid(field: string)

  const PendingApproval := "pending_approval"

  /** A float field accepts floats and ints. */
  function NumberValue(j: Json): Option<real>
  {
    match j
    case JReal(r) => Some(r)
    case JInt(i) => Some(i as real)
    case _ => None
  }

  function StrField(d: Object, key: string): Result<string, SchemaError>
  {
    if key !in d then Failure(Invalid(key))
    else match d[key]
      case JStr(s) => Success(s)
      case _ => Failure(Invalid(key))
  }

  function NumberField(d: Object, key: string): Result<real, SchemaError>
  {
    if key !in d then Failure(Invalid(key))
    else match NumberValue(d[key])
      case Some(r) => Success(r)
      case None => Failure(Invalid(key))
  }

  /** `LocationPoint(**location_data)`: capacity defaults to None and status
      to "active"; `**` on anything but a dict raises. */
  function LocationFromJson(j: Json): (r: Result<LocationPoint, SchemaError>)
    ensures r.Success? ==> j.JObj? && "id" in j.fields && JStr(r.value.id) == j.fields["id"]
    ensures r.Success? && "capacity" !in j.fields ==> r.value.capacity == None
    ensures r.Success? && "status" !in j.fields ==> r.value.status == "active"
  {
    if !j.JObj? then Failure(NotAMapping) else LocationFromFields(j.fields)
  }

  function LocationFromFields(d: Object): (r: Result<LocationPoint, SchemaError>)
    ensures r.Success? ==> "id" in d && JStr(r.value.id) == d["id"]
  {
    var capacity :=
      if "capacity" !in d then Success(None)
      else (match d["capacity"]
        case JNull => Success(None)
        case JInt(c) => Success(Some(c))
        case _ => Failure(Invalid("capacity")));
    var status :=
      if "status" !in d then Success("active")
      else (match d["status"]
        case JStr(s) => Success(s)
        case _ => Failure(Invalid("status")));
    match (StrField(d, "id"), StrField(d, "name"), NumberField(d, "lat"), NumberField(d, "lng"), StrField(d, "type"), capacity, status)
    case (Success(id), Success(name), Success(lat), Success(lng), Success(kind), Success(c), Success(s)) =>
      Success(LocationPoint(id, name, lat, lng, kind, c, s))
    case _ => Failure(Invalid("location"))
  }

  /** One entry of `data["points"]`: "location" and "order" are required,
      "estimated_arrival" defaults to None; indexing a non-dict raises. */
  function PointFromJson(j: Json): (r: Result<RoutePoint, SchemaError>)
    ensures r.Success? ==> j.JObj? && "location" in j.fields && "order" in j.fields
                           && j.fields["order"] == JInt(r.value.order)
    ensures r.Success? && "estimated_arrival" !in j.fields ==> r.value.estimatedArrival == None
  {
    if !j.JObj? then Failure(NotAMapping)
    else
      var d := j.fields;
      if "location" !in d then Failure(MissingKey("location"))
      else
        match LocationFromJson(d["location"])
        case Failure(e) => Failure(e)
        case Success(location) =>
          if "order" !in d then Failure(MissingKey("order"))
          else
            match (d["order"], GetOr(d, "estimated_arrival", JNull))
            case (JInt(order), JNull) => Success(RoutePoint(location, order, None))
            case (JInt(order), JStr(eta)) => Success(RoutePoint(location, order, Some(eta)))
            case _ => Failure(Invalid("point"))
  }

  /** The append loop of `from_dict`: one RoutePoint per entry, in order; the
      first bad entry raises. */
  function PointsFromJson(items: seq<Json>): (r: Result<seq<RoutePoint>, SchemaError>)
    ensures r.Success? ==> |r.value| == |items|
    ensures r.Success? ==> forall k :: 0 <= k < |items| ==> PointFromJson(items[k]) == Success(r.value[k])
    ensures r.Failure? <==> exists k :: 0 <= k < |items| && PointFromJson(items[k]).Failure?
  {
    if items == [] then Success([])
    else
      match PointFromJson(items[0])
      case Failure(e) => Failure(e)
      case Success(p) =>
        match PointsFromJson(items[1..])
        case Failure(e) =>
          assert forall k :: 0 <= k < |items[1..]| ==> items[1..][k] == items[k + 1];
          Failure(e)
        case Success(ps) =>
          assert forall k :: 0 < k < |items| ==> items[k] == items[1..][k - 1];
          Success([p] + ps)
  }

  /** What `for point_data in data.get("points", [])` iterates over: a list
      gives its entries; an empty string or dict gives nothing; a non-empty
      string or dict gives strings, on which `point_data["location"]`
      raises; any other value is not iterable. */
  function PointEntries(data: Object): Result<seq<Json>, SchemaError>
  {
    match GetOr(data, "points", JList([]))
    case JList(items) => Success(items)
    case JStr(s) => if s == "" then Success([]) else Failure(NotAMapping)
    case JObj(m) => if m == map[] then Success([]) else Failure(NotAMapping)
    case _ => Failure(NotIterable)
  }

  const RequiredKeys: seq<string> :=
    ["id", "total_cost", "total_distance", "risk_score", "transport_mode", "estimated_duration"]

  /** The first of `keys` that `data` lacks, in the order `from_dict`
      indexes them. */
  function FirstMissing(data: Object, keys: seq<string>): (r: Option<string>)
    ensures r.Some? ==> r.value in keys && r.value !in data
    ensures r.None? ==> forall k :: k in keys ==> k in data
  {
    if keys == [] then None
    else if keys[0] !in data then Some(keys[0])
    else FirstMissing(data, keys[1..])
  }

  /** `OptimizedRoute.from_dict(data)`. */
  function FromDict(data: Object): (r: Result<OptimizedRoute, SchemaError>)
    ensures r.Success? ==> r.value.status == PendingApproval
  {
    match PointEntries(data)
    case Failure(e) => Failure(e)
    case Success(items) =>
      match PointsFromJson(items)
      case Failure(e) => Failure(e)
      case Success(points) => RouteWithPoints(data, points)
  }

  /** The `cls(...)` call of `from_dict`, once the points are converted: the
      six keys are indexed in order and the status keeps its default. */
  function RouteWithPoints(data: Object, points: seq<RoutePoint>): (r: Result<OptimizedRoute, SchemaError>)
    ensures r.Success? ==> r.value.status == PendingApproval && r.value.points == points
  {
    match FirstMissing(data, RequiredKeys)
    case Some(key) => Failure(MissingKey(key))
    case None =>
      match (StrField(data, "id"), NumberField(data, "total_cost"), NumberField(data, "total_distance"),
             NumberField(data, "risk_score"), StrField(data, "transport_mode"), StrField(data, "estimated_duration"))
      case (Success(id), Success(cost), Success(distance), Success(risk), Success(mode), Success(duration)) =>
        Success(OptimizedRoute(id, points, cost, distance, risk, mode, duration, PendingApproval))
      case _ => Failure(Invalid("route"))
  }

  /** A missing required top-level key is an error. */
  lemma FromDictMissingKey(data: Object, key: string)
    requires key in RequiredKeys && key !in data
    ensures FromDict(data).Failure?
  {
  }

  /** A point without "location" or "order" is an error. */
  lemma FromDictBadPoint(data: Object, k: nat)
    requires "points" in data && data["points"].JList? && k < |data["points"].items|
    requires var p := data["points"].items[k]; p.JObj? && ("location" !in p.fields || "order" !in p.fields)
    ensures FromDict(data).Failure?
  {
    assert PointFromJson(data["points"].items[k]).Failure?;
  }

  /** A successful conversion copies the scalar fields and builds one point
      per entry, in order, with the entry's order. */
  lemma FromDictCopies(data: Object)
    requires FromDict(data).Success?
    ensures var r := FromDict(data).value;
      && data["id"] == JStr(r.id)
      && NumberValue(data["total_cost"]) == Some(r.totalCost)
      && NumberValue(data["total_distance"]) == Some(r.totalDistance)
      && NumberValue(data["risk_score"]) == Some(r.riskScore)
      && data["transport_mode"] == JStr(r.transportMode)
      && data["estimated_duration"] == JStr(r.estimatedDuration)
      && ("points" !in data ==> r.points == [])
      && ("points" in data && data["points"].JList? ==>
            && |r.points| == |data["points"].items|
            && forall k :: 0 <= k < |r.points| ==>
                 var p := data["points"].items[k];
                 && p.JObj? && p.fields["order"] == JInt(r.points[k].order)
                 && ("estimated_arrival" !in p.fields ==> r.points[k].estimatedArrival == None))
  {
    var r := FromDict(data).value;
    if "points" in data && data["points"].JList? {
      var items := data["points"].items;
      forall k | 0 <= k < |r.points|
        ensures var p := items[k];
          && p.JObj? && p.fields["order"] == JInt(r.points[k].order)
          && ("estimated_arrival" !in p.fields ==> r.points[k].estimatedArrival == None)
      {
        assert PointFromJson(items[k]) == Success(r.points[k]);
      }
    }
  }

  // The dictionaries pydantic's `.dict()` produces, the inverse direction.

  function LocationToJson(l: LocationPoint): Json
  {
    JObj(map[
      "id" := JStr(l.id), "name" := JStr(l.name), "lat" := JReal(l.lat), "lng" := JReal(l.lng),
      "type" := JStr(l.locationType),
      "capacity" := (match l.capacity case Some(c) => JInt(c) case None => JNull),
      "status" := JStr(l.status)])
  }

  function PointToJson(p: RoutePoint): Json
  {
    JObj(map[
      "location" := LocationToJson(p.location), "order" := JInt(p.order),
      "estimated_arrival" := (match p.estimatedArrival case Some(e) => JStr(e) case None => JNull)])
  }

  function PointsToJson(ps: seq<RoutePoint>): (js: seq<Json>)
    ensures |js| == |ps|
    ensures forall k :: 0 <= k < |ps| ==> js[k] == PointToJson(ps[k])
  {
    if ps == [] then [] else [PointToJson(ps[0])] + PointsToJson(ps[1..])
  }

  function ToDict(r: OptimizedRoute): Object
  {
    map[
      "id" := JStr(r.id),
      "total_cost" := JReal(r.totalCost), "total_distance" := JReal(r.totalDistance),
      "risk_score" := JReal(r.riskScore), "transport_mode" := JStr(r.transportMode),
      "estimated_duration" := JStr(r.estimatedDuration), "status" := JStr(r.status),
      "points" := JList(PointsToJson(r.points))]
  }

  lemma PointRoundTrip(p: RoutePoint)
    ensures PointFromJson(PointToJson(p)) == Success(p)
  {
    var l := p.location;
    var d := LocationToJson(l).fields;
    assert StrField(d, "id") == Success(l.id);
    assert StrField(d, "type") == Success(l.locationType);
    assert LocationFromJson(LocationToJson(l)) == Success(l);
  }

  lemma {:induction false} PointsRoundTrip(ps: seq<RoutePoint>)
    ensures PointsFromJson(PointsToJson(ps)) == Success(ps)
  {
    if ps != [] {
      PointRoundTrip(ps[0]);
      PointsRoundTrip(ps[1..]);
      var js := PointsToJson(ps);
      assert js[1..] == PointsToJson(ps[1..]);
      assert PointFromJson(js[0]) == Success(ps[0]);
      assert [ps[0]] + ps[1..] == ps;
    }
  }

  /** Converting a stored route to a dictionary and back gives the same
      route, except that the status is reset to "pending_approval":
      `from_dict` never passes the status on. */
  lemma FromDictRoundTrip(r: OptimizedRoute)
    ensures FromDict(ToDict(r)) == Success(r.(status := PendingApproval))
  {
    var d := ToDict(r);
    PointsRoundTrip(r.points);
    assert PointEntries(d) == Success(PointsToJson(r.points));
    ToDictFields(r);
  }

  lemma ToDictFields(r: OptimizedRoute)
    ensures RouteWithPoints(ToDict(r), r.points) == Success(r.(status := PendingApproval))
  {
    var d := ToDict(r);
    assert FirstMissing(d, RequiredKeys) == None;
    assert StrField(d, "id") == Success(r.id);
    assert NumberField(d, "total_cost") == Success(r.totalCost);
    assert NumberField(d, "total_distance") == Success(r.totalDistance);
    assert NumberField(d, "risk_score") == Success(r.riskScore);
    assert StrField(d, "transport_mode") == Success(r.transportMode);
    assert StrField(d, "estimated_duration") == Success(r.estimatedDuration);
  }
}
