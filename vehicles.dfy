/**
 * The vehicle-lookup adapter: resolves a make / model / series (and
 * optionally body) selection to the first matching vehicle.
 */
module VehiclesAdapter {
  import opened Wrappers
  import opened JsValues
  import opened Envelope

  datatype Vehicle = Vehicle(
    id: string,
    makeId: string,
    modelId: string,
    seriesId: string,
    bodyId: Option<string>,
    title: string,
    price: real,
    images: Option<seq<string>>)

  const VehiclesPath: string := "/store/vehicles"

  /**
   * Builds the lookup request: the query record always holds make_id,
   * model_id and series_id, and gains body_id only when the body id is
   * truthy (neither null nor the empty string).
   */
  method VehicleRequest(makeId: string, modelId: string, seriesId: string, bodyId: Option<string>)
    returns (req: Request)
    ensures req.path == VehiclesPath
    ensures req.query.Keys == {"make_id", "model_id", "series_id"} + (if Truthy(bodyId) then {"body_id"} else {})
    ensures req.query["make_id"] == Text(makeId)
    ensures req.query["model_id"] == Text(modelId)
    ensures req.query["series_id"] == Text(seriesId)
    ensures "body_id" in req.query ==> req.query["body_id"] == Text(bodyId.value)
  {
    var queryParams := map["make_id" := Text(makeId), "model_id" := Text(modelId), "series_id" := Text(seriesId)];
    if Truthy(bodyId) {
      queryParams := queryParams["body_id" := Text(bodyId.value)];
    }
    req := Request(VehiclesPath, queryParams);
  }

  /**
   * The lookup's result for the way the request ended: the first vehicle
   * of the normalised list, or null when the list is empty or anything
   * threw.
   */
  function FindVehicle(outcome: Outcome<Vehicle>): (v: Option<Vehicle>)
    ensures outcome.Failed? || outcome.response.NullBody? ==> v.None?
    ensures outcome.Received? && !outcome.response.NullBody? ==>
              var items := Normalise(outcome.response).value.items;
              (v.Some? <==> |items| > 0) && (v.Some? ==> v.value == items[0])
  {
    if outcome.Failed? then None
    else
      match Normalise(outcome.response)
      case None => None
      case Some(page) => if |page.items| > 0 then Some(page.items[0]) else None
  }

  /** A found vehicle heads one of the lists the response actually carried. */
  lemma FoundVehicleHeadsCarriedList(outcome: Outcome<Vehicle>)
    requires FindVehicle(outcome).Some?
    ensures outcome.Received?
    ensures exists xs :: xs in CarriedLists(outcome.response) && |xs| > 0 && xs[0] == FindVehicle(outcome).value
  {
    var items := Normalise(outcome.response).value.items;
    assert items in CarriedLists(outcome.response);
  }
}
