/**
 * The vehicle-series adapter: lists the series (production year ranges) of one model a page at a time.
 */
module SeriesAdapter {
  import opened Wrappers
  import opened Envelope
  import opened Pagination

  datatype VehicleSeries = VehicleSeries(id: string, startYear: int, endYear: int, modelId: string)

  const SeriesPath: string := "/store/vehicles/series"

  /**
   * ListVehicleSeries: the request it sends (model_id, limit and offset) and the listing it
   * returns for the way that request ended. `pageParam` defaults to 1 and
   * `limit` to 100.
   */
  function ListVehicleSeries(modelId: string, outcome: Outcome<VehicleSeries>, pageParam: int := DefaultPageParam, limit: int := DefaultLimit): (x: Exchange<VehicleSeries>)
    ensures x.request.path == SeriesPath
    ensures x.request.query.Keys == {"model_id", "limit", "offset"}
    ensures x.request.query["model_id"] == Text(modelId)
    ensures x.request.query["limit"] == Number(limit)
    ensures x.request.query["offset"] == Number(Offset(pageParam, limit))
    ensures x.listing == ListPage(outcome, pageParam, limit)
  {
    Exchange(Request(SeriesPath, map["model_id" := Text(modelId), "limit" := Number(limit), "offset" := Number(Offset(pageParam, limit))]),
             ListPage(outcome, pageParam, limit))
  }
}
