/**
 * The vehicle-bodies adapter: lists the body styles of one model a page at a time.
 */
module BodiesAdapter {
  import opened Wrappers
  import opened Envelope
  import opened Pagination

  datatype VehicleBody = VehicleBody(id: string, name: string)

  const BodiesPath: string := "/store/vehicles/bodies"

  /**
   * ListVehicleBodies: the request it sends (model_id, limit and offset) and the listing it
   * returns for the way that request ended. `pageParam` defaults to 1 and
   * `limit` to 100.
   */
  function ListVehicleBodies(modelId: string, outcome: Outcome<VehicleBody>, pageParam: int := DefaultPageParam, limit: int := DefaultLimit): (x: Exchange<VehicleBody>)
    ensures x.request.path == BodiesPath
    ensures x.request.query.Keys == {"model_id", "limit", "offset"}
    ensures x.request.query["model_id"] == Text(modelId)
    ensures x.request.query["limit"] == Number(limit)
    ensures x.request.query["offset"] == Number(Offset(pageParam, limit))
    ensures x.listing == ListPage(outcome, pageParam, limit)
  {
    Exchange(Request(BodiesPath, map["model_id" := Text(modelId), "limit" := Number(limit), "offset" := Number(Offset(pageParam, limit))]),
             ListPage(outcome, pageParam, limit))
  }
}
