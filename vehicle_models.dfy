/**
 * The vehicle-models adapter: lists the models of one make a page at a time.
 */
module ModelsAdapter {
  import opened Wrappers
  import opened Envelope
  import opened Pagination

  datatype VehicleModel = VehicleModel(id: string, name: string, makeId: string)

  const ModelsPath: string := "/store/vehicles/models"

  /**
   * ListVehicleModels: the request it sends (make_id, limit and offset) and the listing it
   * returns for the way that request ended. `pageParam` defaults to 1 and
   * `limit` to 100.
   */
  function ListVehicleModels(makeId: string, outcome: Outcome<VehicleModel>, pageParam: int := DefaultPageParam, limit: int := DefaultLimit): (x: Exchange<VehicleModel>)
    ensures x.request.path == ModelsPath
    ensures x.request.query.Keys == {"make_id", "limit", "offset"}
    ensures x.request.query["make_id"] == Text(makeId)
    ensures x.request.query["limit"] == Number(limit)
    ensures x.request.query["offset"] == Number(Offset(pageParam, limit))
    ensures x.listing == ListPage(outcome, pageParam, limit)
  {
    Exchange(Request(ModelsPath, map["make_id" := Text(makeId), "limit" := Number(limit), "offset" := Number(Offset(pageParam, limit))]),
             ListPage(outcome, pageParam, limit))
  }
}
