/** A candidate route dictionary of the route agent. The keys the
    generation step writes are never reassigned afterwards and are constant
    fields; the keys later steps add are variable fields, None while the key
    is absent. Routes are objects: every step that writes a key writes into
    the same route that the candidate list and the optimized list share. */
module RouteRecord {
  import opened Wrappers
  import Schemas

  class Route {
    const id: string
    const forecastId: string
    const points: seq<Schemas.RoutePoint>
    const totalDistance: real
    const transportMode: string
    const quantity: int
    const priority: string
    var totalCost: Option<real>
    var riskScore: Option<real>
    var optimizationRank: Option<int>
    var compositeScore: Option<real>
    var recommended: Option<bool>
    var estimatedDuration: Option<string>

    constructor (id: string, forecastId: string, points: seq<Schemas.RoutePoint>, totalDistance: real,
                 transportMode: string, quantity: int, priority: string)
      ensures this.id == id && this.forecastId == forecastId && this.points == points
      ensures this.totalDistance == totalDistance && this.transportMode == transportMode
      ensures this.quantity == quantity && this.priority == priority
      ensures totalCost == None && riskScore == None && optimizationRank == None
      ensures compositeScore == None && recommended == None && estimatedDuration == None
    {
      this.id := id;
      this.forecastId := forecastId;
      this.points := points;
      this.totalDistance := totalDistance;
      this.transportMode := transportMode;
      this.quantity := quantity;
      this.priority := priority;
      totalCost := None;
      riskScore := None;
      optimizationRank := None;
      compositeScore := None;
      recommended := None;
      estimatedDuration := None;
    }
  }

  /** No route object occurs twice in the list. */
  predicate Distinct(rs: seq<Route>)
  {
    forall i, j :: 0 <= i < j < |rs| ==> rs[i] != rs[j]
  }
}
