/**
 * The vehicle-makes adapter: lists makes a page at a time.
 */
module MakesAdapter {
  import opened Wrappers
  import opened Envelope
  import opened Pagination

  datatype VehicleMake = VehicleMake(id: string, name: string)

  const MakesPath: string := "/store/vehicles/makes"

  /**
   * ListVehicleMakes: the request it sends (limit and offset) and the listing it
   * returns for the way that request ended. `pageParam` defaults to 1 and
   * `limit` to 100.
   */
  function ListVehicleMakes(outcome: Outcome<VehicleMake>, pageParam: int := DefaultPageParam, limit: int := DefaultLimit): (x: Exchange<VehicleMake>)
    ensures x.request.path == MakesPath
    ensures x.request.query.Keys == {"limit", "offset"}
    ensures x.request.query["limit"] == Number(limit)
    ensures x.request.query["offset"] == Number(Offset(pageParam, limit))
    ensures x.listing == ListPage(outcome, pageParam, limit)
  {
    Exchange(Request(MakesPath, map["limit" := Number(limit), "offset" := Number(Offset(pageParam, limit))]),
             ListPage(outcome, pageParam, limit))
  }
}
