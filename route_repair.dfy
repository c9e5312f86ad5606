/** `fix_route_data_for_storage` (backend/utils/routes.py): before a route
    is stored, every dictionary point is rebuilt with exactly a location,
    an order and an estimated arrival, and the location's id, type, name,
    lat and lng are filled in where they are missing or falsy. Any other
    point is dropped. When a point's location is not a dictionary the
    helper gives up and returns the route with its original point list,
    in which the locations it had already visited were filled in place. */
module RouteRepair {
  import opened Wrappers
  import opened Json
  import opened Seqs
  import opened Text

  /** `str(v)` for the values an order can hold; the text of a real, a
      list or a dictionary is left to `show`. */
  function Str(v: Json, show: Json -> string): string
  {
    match v
    case JNull => "None"
    case JBool(b) => if b then "True" else "False"
    case JInt(i) => IntToString(i)
    case JStr(s) => s
    case _ => show(v)
  }

  /** `point.get('order', 1)`. */
  function OrderOf(point: Object): Json
  {
    GetOr(point, "order", JInt(1))
  }

  /** `point.get("waypoint_type", "waypoint")`. */
  function WaypointTypeOf(point: Object): Json
  {
    GetOr(point, "waypoint_type", JStr("waypoint"))
  }

  const LocationKeys: set<string> := {"id", "type", "name", "lat", "lng"}

  /** The value each location key is given when it is missing or falsy. */
  function Default(key: string, point: Object, show: Json -> string): Json
  {
    var order := Str(OrderOf(point), show);
    match key
    case "id" => JStr("waypoint_" + order)
    case "type" => WaypointTypeOf(point)
    case "name" => JStr("Waypoint " + order)
    case _ => JReal(0.0)
  }

  /** The location after the five writes: every location key that is
      missing or falsy holds its default, every other entry is kept. */
  function FixLocation(loc: Object, point: Object, show: Json -> string): (fixed: Object)
    ensures fixed.Keys == loc.Keys + LocationKeys
  {
    map k | k in loc.Keys + LocationKeys ::
      if k in LocationKeys && !Truthy(GetOr(loc, k, JNull)) then Default(k, point, show) else loc[k]
  }

  const PointKeys: set<string> := {"location", "order", "estimated_arrival"}

  predicate IsObject(j: Json)
  {
    j.JObj?
  }

  /** A dictionary point whose "location" is there but is not a dictionary:
      the `.get` on it raises. */
  predicate BadPoint(j: Json)
  {
    j.JObj? && "location" in j.fields && !j.fields["location"].JObj?
  }

  predicate Fixable(items: seq<Json>)
  {
    forall k :: 0 <= k < |items| ==> !BadPoint(items[k])
  }

  /** `point.get("location", {})` for a point that is not bad. */
  function LocationOf(point: Object): Object
  {
    if "location" in point && point["location"].JObj? then point["location"].fields else map[]
  }

  /** The rebuilt point of one dictionary point. */
  function FixPoint(j: Json, show: Json -> string): Json
    requires j.JObj?
  {
    JObj(map["location" := JObj(FixLocation(LocationOf(j.fields), j.fields, show)),
             "order" := OrderOf(j.fields),
             "estimated_arrival" := GetOr(j.fields, "estimated_arrival", JNull)])
  }

  /** `fixed_points`: one rebuilt point per dictionary point, in order. */
  function FixedPoints(items: seq<Json>, show: Json -> string): seq<Json>
    requires Fixable(items)
  {
    var objects := Filter(IsObject, items);
    FilterIsSubsequence(IsObject, items);
    seq(|objects|, k requires 0 <= k < |objects| => FixPoint(objects[k], show))
  }

  /** A point as the in-place writes to its location leave it. */
  function Touch(j: Json, show: Json -> string): Json
  {
    if j.JObj? && "location" in j.fields && j.fields["location"].JObj? then
      JObj(j.fields["location" := JObj(FixLocation(j.fields["location"].fields, j.fields, show))])
    else j
  }

  function Touched(items: seq<Json>, show: Json -> string): (r: seq<Json>)
    ensures |r| == |items| && forall k :: 0 <= k < |items| ==> r[k] == Touch(items[k], show)
  {
    seq(|items|, k requires 0 <= k < |items| => Touch(items[k], show))
  }

  /** The position of the point the loop fails on. */
  function FirstBad(items: seq<Json>): (f: nat)
    requires !Fixable(items)
    ensures f < |items| && BadPoint(items[f])
    ensures forall k :: 0 <= k < f ==> !BadPoint(items[k])
  {
    if BadPoint(items[0]) then 0
    else
      assert !Fixable(items[1..]) by {
        var k :| 0 <= k < |items| && BadPoint(items[k]);
        assert items[1..][k - 1] == items[k];
      }
      var f := FirstBad(items[1..]);
      assert forall k :: 1 <= k < f + 1 ==> items[k] == items[1..][k - 1];
      f + 1
  }

  /** What `for point in v` walks over: a list's items or a string's
      characters. A dictionary's keys are strings, none of which the loop
      keeps, so its walk is given as empty. None: the value cannot be
      iterated (TypeError). */
  function Iterated(v: Json): Option<seq<Json>>
  {
    match v
    case JList(items) => Some(items)
    case JStr(s) => Some(seq(|s|, i requires 0 <= i < |s| => JStr([s[i]])))
    case JObj(_) => Some([])
    case _ => None
  }

  /** The route the helper returns. */
  function FixedRoute(routeData: Object, show: Json -> string): (r: Object)
    ensures "points" !in routeData ==> r == routeData
    ensures r.Keys == routeData.Keys
    ensures forall k :: k in routeData && k != "points" ==> r[k] == routeData[k]
  {
    if "points" !in routeData then routeData
    else
      match Iterated(routeData["points"])
      case None => routeData
      case Some(items) =>
        if Fixable(items) then routeData["points" := JList(FixedPoints(items, show))]
        else
          var f := FirstBad(items);
          routeData["points" := JList(Touched(items[..f], show) + items[f..])]
  }

  /** One more point extends the rebuilt list by its rebuilt point when it
      is a dictionary, and by nothing otherwise. */
  lemma FixedPointsStep(items: seq<Json>, x: Json, show: Json -> string)
    requires Fixable(items) && !BadPoint(x)
    ensures Fixable(items + [x])
    ensures FixedPoints(items + [x], show) ==
            FixedPoints(items, show) + (if x.JObj? then [FixPoint(x, show)] else [])
  {
    assert forall k :: 0 <= k < |items| ==> (items + [x])[k] == items[k];
    FilterAppend(IsObject, items, x);
  }

  /** Visiting point `i` touches it and nothing else in the list. */
  lemma TouchedStep(points: seq<Json>, i: nat, visited: seq<Json>, show: Json -> string)
    requires i < |points| && visited == Touched(points[..i], show) + points[i..]
    ensures visited[i := Touch(points[i], show)] == Touched(points[..i + 1], show) + points[i + 1..]
  {
    assert visited[i] == points[i];
  }

  /** The loop fails at the first bad point. */
  lemma FirstBadAt(items: seq<Json>, i: nat)
    requires i < |items| && Fixable(items[..i]) && BadPoint(items[i])
    ensures !Fixable(items) && FirstBad(items) == i
  {
    assert forall k :: 0 <= k < i ==> items[..i][k] == items[k];
  }

  /** `if not loc.get(key): loc[key] = value`, one of the five writes. */
  function Fill(loc: Object, key: string, value: Json): Object
  {
    if Truthy(GetOr(loc, key, JNull)) then loc else loc[key := value]
  }

  /** The five location keys are pairwise different. */
  lemma LocationKeysDistinct()
    ensures "id" != "type" && "id" != "name" && "id" != "lat" && "id" != "lng"
    ensures "type" != "name" && "type" != "lat" && "type" != "lng"
    ensures "name" != "lat" && "name" != "lng" && "lat" != "lng"
  {
  }

  /** The five writes in the order of the source give the filled location. */
  lemma FillsMakeFixLocation(loc: Object, point: Object, show: Json -> string)
    ensures var l1 := Fill(loc, "id", Default("id", point, show));
            var l2 := Fill(l1, "type", Default("type", point, show));
            var l3 := Fill(l2, "name", Default("name", point, show));
            var l4 := Fill(l3, "lat", Default("lat", point, show));
            Fill(l4, "lng", Default("lng", point, show)) == FixLocation(loc, point, show)
  {
    var l1 := Fill(loc, "id", Default("id", point, show));
    var l2 := Fill(l1, "type", Default("type", point, show));
    var l3 := Fill(l2, "name", Default("name", point, show));
    var l4 := Fill(l3, "lat", Default("lat", point, show));
    var l5 := Fill(l4, "lng", Default("lng", point, show));
    var fixed := FixLocation(loc, point, show);
    LocationKeysDistinct();
    forall k ensures (k in l5 <==> k in fixed) && (k in l5 ==> l5[k] == fixed[k]) {
      if k != "id" { FillElsewhere(loc, "id", Default("id", point, show), k); }
      if k != "type" { FillElsewhere(l1, "type", Default("type", point, show), k); }
      if k != "name" { FillElsewhere(l2, "name", Default("name", point, show), k); }
      if k != "lat" { FillElsewhere(l3, "lat", Default("lat", point, show), k); }
      if k != "lng" { FillElsewhere(l4, "lng", Default("lng", point, show), k); }
    }
  }

  /** A write leaves every other key as it was. */
  lemma FillElsewhere(loc: Object, key: string, value: Json, k: string)
    requires k != key
    ensures k in Fill(loc, key, value) <==> k in loc
    ensures GetOr(Fill(loc, key, value), k, JNull) == GetOr(loc, k, JNull)
    ensures k in loc ==> Fill(loc, key, value)[k] == loc[k]
  {
  }

  /** The writes to one location dictionary, in the order of the source. */
  method FillLocation(location: Object, point: Object, show: Json -> string) returns (loc: Object)
    ensures loc == FixLocation(location, point, show)
  {
    loc := location;
    var order := Str(GetOr(point, "order", JInt(1)), show);
    if !Truthy(GetOr(loc, "id", JNull)) {
      loc := loc["id" := JStr("waypoint_" + order)];
    }
    assert loc == Fill(location, "id", Default("id", point, show));
    ghost var l1 := loc;
    if !Truthy(GetOr(loc, "type", JNull)) {
      loc := loc["type" := GetOr(point, "waypoint_type", JStr("waypoint"))];
    }
    assert loc == Fill(l1, "type", Default("type", point, show));
    ghost var l2 := loc;
    if !Truthy(GetOr(loc, "name", JNull)) {
      loc := loc["name" := JStr("Waypoint " + order)];
    }
    assert loc == Fill(l2, "name", Default("name", point, show));
    ghost var l3 := loc;
    if !Truthy(GetOr(loc, "lat", JNull)) {
      loc := loc["lat" := JReal(0.0)];
    }
    assert loc == Fill(l3, "lat", Default("lat", point, show));
    ghost var l4 := loc;
    if !Truthy(GetOr(loc, "lng", JNull)) {
      loc := loc["lng" := JReal(0.0)];
    }
    assert loc == Fill(l4, "lng", Default("lng", point, show));
    FillsMakeFixLocation(location, point, show);
  }

  /** One pass of the loop body: false when the point's location is not a
      dictionary; otherwise the point as its location's in-place writes
      leave it and what it adds to `fixed_points`. */
  method RepairPoint(point: Json, show: Json -> string) returns (ok: bool, touched: Json, fixedPoint: seq<Json>)
    ensures ok <==> !BadPoint(point)
    ensures ok ==> touched == Touch(point, show) && fixedPoint == if point.JObj? then [FixPoint(point, show)] else []
  {
    touched, fixedPoint := point, [];
    if point.JObj? {
      var location := GetOr(point.fields, "location", JObj(map[]));
      if !location.JObj? {
        return false, point, [];
      }
      var loc := FillLocation(location.fields, point.fields, show);
      if "location" in point.fields {
        touched := JObj(point.fields["location" := JObj(loc)]);
      }
      fixedPoint := [JObj(map["location" := JObj(loc),
                              "order" := GetOr(point.fields, "order", JInt(1)),
                              "estimated_arrival" := GetOr(point.fields, "estimated_arrival", JNull)])];
    }
    ok := true;
  }

  /** The loop over the points: the rebuilt list, or, when a point's
      location is not a dictionary, the point list as the writes so far
      left it. */
  method RepairPoints(points: seq<Json>, show: Json -> string) returns (ok: bool, fixedPoints: seq<Json>, visited: seq<Json>)
    ensures ok <==> Fixable(points)
    ensures ok ==> fixedPoints == FixedPoints(points, show)
    ensures !ok ==> visited == Touched(points[..FirstBad(points)], show) + points[FirstBad(points)..]
  {
    fixedPoints, visited := [], points;
    var i := 0;
    while i < |points|
      invariant 0 <= i <= |points|
      invariant Fixable(points[..i])
      invariant fixedPoints == FixedPoints(points[..i], show)
      invariant visited == Touched(points[..i], show) + points[i..]
    {
      var pointOk, touched, fixedPoint := RepairPoint(points[i], show);
      if !pointOk {
        FirstBadAt(points, i);
        return false, fixedPoints, visited;
      }
      TouchedStep(points, i, visited, show);
      FixedPointsStep(points[..i], points[i], show);
      PrefixSnoc(points, i);
      visited := visited[i := touched];
      fixedPoints := fixedPoints + fixedPoint;
      i := i + 1;
    }
    assert points[..i] == points;
    ok := true;
  }

  /** `fix_route_data_for_storage`. */
  method FixRouteDataForStorage(routeData: Object, show: Json -> string) returns (result: Object)
    ensures result == FixedRoute(routeData, show)
  {
    if "points" !in routeData {
      return routeData;
    }
    var walk := Iterated(routeData["points"]);
    if walk.None? {
      return routeData;
    }
    var ok, fixedPoints, visited := RepairPoints(walk.value, show);
    if !ok {
      return routeData["points" := JList(visited)];
    }
    return routeData["points" := JList(fixedPoints)];
  }

  // ---------------------------------------------------------------------
  // Properties

  /** A point without a location gets a new one holding exactly the five
      defaults. */
  lemma FreshLocation(point: Object, show: Json -> string)
    requires "location" !in point
    ensures var order := Str(OrderOf(point), show);
            FixLocation(LocationOf(point), point, show) ==
              map["id" := JStr("waypoint_" + order), "type" := WaypointTypeOf(point),
                  "name" := JStr("Waypoint " + order), "lat" := JReal(0.0), "lng" := JReal(0.0)]
  {
  }

  /** Each rebuilt point has exactly the keys location, order and
      estimated_arrival, the order defaulting to 1 and the arrival to None. */
  lemma FixPointShape(j: Json, show: Json -> string)
    requires j.JObj?
    ensures var fixed := FixPoint(j, show);
            && fixed.JObj? && fixed.fields.Keys == PointKeys && !BadPoint(fixed)
            && fixed.fields["order"] == (if "order" in j.fields then j.fields["order"] else JInt(1))
            && fixed.fields["estimated_arrival"] ==
                 (if "estimated_arrival" in j.fields then j.fields["estimated_arrival"] else JNull)
  {
  }

  /** The rebuilt list has one point per dictionary entry of the original,
      in order; non-dictionary entries are dropped; when every entry is a
      dictionary it corresponds entry by entry. */
  lemma FixedPointsShape(items: seq<Json>, show: Json -> string)
    requires Fixable(items)
    ensures var fixed, objects := FixedPoints(items, show), Filter(IsObject, items);
            && |fixed| == |objects| <= |items|
            && IsSubsequence(objects, items)
            && (forall j :: j in objects <==> j in items && j.JObj?)
            && forall k :: 0 <= k < |fixed| ==> fixed[k] == FixPoint(objects[k], show)
    ensures (forall k :: 0 <= k < |items| ==> items[k].JObj?) ==>
              |FixedPoints(items, show)| == |items| &&
              forall k :: 0 <= k < |items| ==> FixedPoints(items, show)[k] == FixPoint(items[k], show)
  {
    FilterIsSubsequence(IsObject, items);
    if forall k :: 0 <= k < |items| ==> items[k].JObj? {
      FilterAll(IsObject, items);
    }
  }

  /** Filling a location a second time changes nothing, unless its type
      came from a falsy waypoint type and the second point offers another. */
  lemma FixLocationIdempotent(loc: Object, p: Object, q: Object, show: Json -> string)
    requires Truthy(WaypointTypeOf(p)) || WaypointTypeOf(q) == WaypointTypeOf(p)
    ensures FixLocation(FixLocation(loc, p, show), q, show) == FixLocation(loc, p, show)
  {
    var fixed := FixLocation(loc, p, show);
    var twice := FixLocation(fixed, q, show);
    forall k | k in fixed
      ensures twice[k] == fixed[k]
    {
      FixKeyIdempotent(k, loc, p, q, show);
    }
  }

  /** One key of a filled location survives a second filling. */
  lemma FixKeyIdempotent(k: string, loc: Object, p: Object, q: Object, show: Json -> string)
    requires Truthy(WaypointTypeOf(p)) || WaypointTypeOf(q) == WaypointTypeOf(p)
    requires k in FixLocation(loc, p, show)
    ensures k in FixLocation(FixLocation(loc, p, show), q, show)
    ensures FixLocation(FixLocation(loc, p, show), q, show)[k] == FixLocation(loc, p, show)[k]
  {
    if k == "id" || k == "name" {
      assert Truthy(Default(k, p, show));
    }
  }

  /** A rebuilt point rebuilds to itself when its waypoint type is truthy. */
  lemma FixPointIdempotent(j: Json, show: Json -> string)
    requires j.JObj? && !BadPoint(j) && Truthy(WaypointTypeOf(j.fields))
    ensures FixPoint(j, show).JObj? && !BadPoint(FixPoint(j, show))
    ensures FixPoint(FixPoint(j, show), show) == FixPoint(j, show)
  {
    var fixed := FixPoint(j, show);
    FixLocationIdempotent(LocationOf(j.fields), j.fields, fixed.fields, show);
  }

  /** Touching a point twice is touching it once. */
  lemma TouchIdempotent(j: Json, show: Json -> string)
    ensures BadPoint(Touch(j, show)) <==> BadPoint(j)
    ensures Touch(Touch(j, show), show) == Touch(j, show)
  {
    if j.JObj? && "location" in j.fields && j.fields["location"].JObj? {
      var t := Touch(j, show);
      FixLocationIdempotent(j.fields["location"].fields, j.fields, t.fields, show);
    }
  }

  /** Every dictionary point of the list has a truthy waypoint type (or
      none), the condition under which repairing twice is repairing once. */
  predicate TypesTruthy(routeData: Object)
  {
    "points" in routeData && routeData["points"].JList? ==>
      forall k :: 0 <= k < |routeData["points"].items| ==>
        var j := routeData["points"].items[k];
        j.JObj? ==> Truthy(WaypointTypeOf(j.fields))
  }

  /** Every rebuilt point is a dictionary with a dictionary location that
      rebuilds to itself, when every dictionary point has a truthy
      waypoint type. */
  lemma FixedPointsStable(items: seq<Json>, show: Json -> string)
    requires Fixable(items)
    requires forall k :: 0 <= k < |items| && items[k].JObj? ==> Truthy(WaypointTypeOf(items[k].fields))
    ensures var fixed := FixedPoints(items, show);
            forall k :: 0 <= k < |fixed| ==>
              fixed[k].JObj? && !BadPoint(fixed[k]) && FixPoint(fixed[k], show) == fixed[k]
  {
    var fixed := FixedPoints(items, show);
    var objects := Filter(IsObject, items);
    FixedPointsShape(items, show);
    forall k | 0 <= k < |fixed|
      ensures fixed[k].JObj? && !BadPoint(fixed[k]) && FixPoint(fixed[k], show) == fixed[k]
    {
      assert objects[k] in items;
      FixPointIdempotent(objects[k], show);
    }
  }

  /** Rebuilding rebuilt points gives them back, when every dictionary
      point has a truthy waypoint type. */
  lemma FixedPointsIdempotent(items: seq<Json>, show: Json -> string)
    requires Fixable(items)
    requires forall k :: 0 <= k < |items| && items[k].JObj? ==> Truthy(WaypointTypeOf(items[k].fields))
    ensures Fixable(FixedPoints(items, show))
    ensures FixedPoints(FixedPoints(items, show), show) == FixedPoints(items, show)
  {
    var fixed := FixedPoints(items, show);
    FixedPointsStable(items, show);
    FixedPointsShape(fixed, show);
  }

  /** A failed repair fails again at the same point and touches nothing new. */
  lemma TouchedIdempotent(items: seq<Json>, show: Json -> string)
    requires !Fixable(items)
    ensures var f := FirstBad(items);
            var once := Touched(items[..f], show) + items[f..];
            !Fixable(once) && FirstBad(once) == f && Touched(once[..f], show) + once[f..] == once
  {
    var f := FirstBad(items);
    var once := Touched(items[..f], show) + items[f..];
    forall k | 0 <= k < f
      ensures !BadPoint(once[k]) && Touch(once[k], show) == once[k]
    {
      TouchIdempotent(items[k], show);
    }
    assert forall k :: 0 <= k < f ==> once[..f][k] == once[k];
    FirstBadAt(once, f);
    assert Touched(once[..f], show) == once[..f];
    assert once[..f] + once[f..] == once;
  }

  /** A route whose repair rebuilt its points repairs to itself. */
  lemma RebuiltRouteIdempotent(routeData: Object, items: seq<Json>, show: Json -> string)
    requires "points" in routeData && Iterated(routeData["points"]) == Some(items) && Fixable(items)
    requires forall k :: 0 <= k < |items| && items[k].JObj? ==> Truthy(WaypointTypeOf(items[k].fields))
    ensures FixedRoute(FixedRoute(routeData, show), show) == FixedRoute(routeData, show)
  {
    FixedPointsIdempotent(items, show);
    var fixed := FixedPoints(items, show);
    var once := routeData["points" := JList(fixed)];
    assert FixedRoute(routeData, show) == once;
    assert Iterated(once["points"]) == Some(fixed);
    assert FixedRoute(once, show) == once["points" := JList(fixed)];
  }

  /** A route whose repair failed repairs to itself. */
  lemma FailedRouteIdempotent(routeData: Object, items: seq<Json>, show: Json -> string)
    requires "points" in routeData && Iterated(routeData["points"]) == Some(items) && !Fixable(items)
    ensures FixedRoute(FixedRoute(routeData, show), show) == FixedRoute(routeData, show)
  {
    TouchedIdempotent(items, show);
    var f := FirstBad(items);
    var touched := Touched(items[..f], show) + items[f..];
    var once := routeData["points" := JList(touched)];
    FailedRoute(routeData, items, show);
    assert Iterated(once["points"]) == Some(touched);
    FailedRoute(once, touched, show);
    assert once["points" := JList(touched)] == once;
  }

  /** The route a failed repair leaves behind. */
  lemma FailedRoute(routeData: Object, items: seq<Json>, show: Json -> string)
    requires "points" in routeData && Iterated(routeData["points"]) == Some(items) && !Fixable(items)
    ensures var f := FirstBad(items);
            FixedRoute(routeData, show) == routeData["points" := JList(Touched(items[..f], show) + items[f..])]
  {
  }

  /** Repairing a repaired route changes nothing. */
  lemma FixedRouteIdempotent(routeData: Object, show: Json -> string)
    requires TypesTruthy(routeData)
    ensures FixedRoute(FixedRoute(routeData, show), show) == FixedRoute(routeData, show)
  {
    if "points" in routeData && Iterated(routeData["points"]).Some? {
      var items := Iterated(routeData["points"]).value;
      if Fixable(items) {
        if !routeData["points"].JList? {
          assert forall k :: 0 <= k < |items| ==> !items[k].JObj?;
        }
        RebuiltRouteIdempotent(routeData, items, show);
      } else {
        FailedRouteIdempotent(routeData, items, show);
      }
    }
  }

  /** When the loop fails the route keeps its point list: same length, the
      failing point and those after it untouched, and the points before it
      changed in their location at most. */
  lemma FailureKeepsPoints(routeData: Object, show: Json -> string)
    requires "points" in routeData && routeData["points"].JList?
    requires !Fixable(routeData["points"].items)
    ensures var items, f := routeData["points"].items, FirstBad(routeData["points"].items);
            var result := FixedRoute(routeData, show)["points"];
            && result.JList? && |result.items| == |items|
            && (forall k :: f <= k < |items| ==> result.items[k] == items[k])
            && (forall k :: 0 <= k < f ==> SameShape(result.items[k], items[k]))
  {
    var items, f := routeData["points"].items, FirstBad(routeData["points"].items);
    FailedRoute(routeData, items, show);
    TouchedPrefixShape(items, f, show);
  }

  /** A touched prefix keeps the shape of every point, and the rest is kept. */
  lemma TouchedPrefixShape(items: seq<Json>, f: nat, show: Json -> string)
    requires f <= |items|
    ensures var touched := Touched(items[..f], show) + items[f..];
            && |touched| == |items|
            && (forall k :: f <= k < |items| ==> touched[k] == items[k])
            && (forall k :: 0 <= k < f ==> SameShape(touched[k], items[k]))
  {
    var touched := Touched(items[..f], show) + items[f..];
    forall k | 0 <= k < f
      ensures SameShape(touched[k], items[k])
    {
      assert touched[k] == Touch(items[k], show);
      TouchShape(items[k], show);
    }
    assert forall k :: f <= k < |items| ==> touched[k] == items[k];
  }

  /** Two values that are both dictionaries with the same keys, agreeing on
      every key but "location", or are both something else. */
  predicate SameShape(a: Json, b: Json)
  {
    && (a.JObj? <==> b.JObj?)
    && (b.JObj? ==>
          && a.fields.Keys == b.fields.Keys
          && forall key :: key in b.fields && key != "location" ==> a.fields[key] == b.fields[key])
  }

  /** Touching a point changes at most its "location" entry. */
  lemma TouchShape(j: Json, show: Json -> string)
    ensures SameShape(Touch(j, show), j)
  {
  }
}
