/**
 * The wiper-kit adapter: the kits compatible with one vehicle, with the
 * development-only mock data that stands in for an empty or failed answer.
 * The two environment checks become parameters: `isDevelopment` for
 * NODE_ENV being "development", `useMockData` for
 * NEXT_PUBLIC_USE_MOCK_DATA being "true".
 */
module WiperKitsAdapter {
  import opened Wrappers
  import opened Envelope

  /** Which wiper positions a kit covers; the two flags are independent. */
  datatype Compatibility = Compatibility(frontSet: Option<bool>, rear: Option<bool>)

  /** A kit; prices are carried as given and never computed with. */
  datatype WiperKit = WiperKit(
    id: string,
    title: string,
    description: Option<string>,
    price: real,
    images: Option<seq<string>>,
    vehicleIds: Option<seq<string>>,
    compatibility: Option<Compatibility>)

  /** The adapter's result: the kits and their count. */
  datatype KitList = KitList(wiperKits: seq<WiperKit>, count: int)

  const KitsPath: string := "/store/wipers/kits"

  /** The three sample kits used in development. */
  const MockWiperKits: seq<WiperKit> := [
    WiperKit("wiper_kit_01", "Wipertech Front Wiper Blade Set",
      Some("Premium front wiper blades (left & right) custom-designed for your vehicle"), 39.99,
      Some(["https://placehold.co/800x600/333/white?text=Wipertech+Front+Set"]), None,
      Some(Compatibility(Some(true), Some(false)))),
    WiperKit("wiper_kit_02", "Wipertech Rear Wiper Blade",
      Some("Specialized rear wiper blade designed specifically for your vehicle's rear window"), 19.99,
      Some(["https://placehold.co/800x600/333/white?text=Wipertech+Rear+Blade"]), None,
      Some(Compatibility(Some(false), Some(true)))),
    WiperKit("wiper_kit_03", "Wipertech Complete Wiper Set",
      Some("Full set of front (left & right) and rear wiper blades for complete visibility"), 49.99,
      Some(["https://placehold.co/800x600/333/white?text=Wipertech+Complete+Set"]), None,
      Some(Compatibility(Some(true), Some(true))))
  ]

  /** The mock kits together with their count. */
  function MockResult(): (r: KitList)
    ensures r.wiperKits == MockWiperKits && r.count == |r.wiperKits| == 3
  {
    KitList(MockWiperKits, |MockWiperKits|)
  }

  /**
   * The request the adapter sends, or none when development with mock data
   * short-circuits before any fetch.
   */
  function KitsRequest(isDevelopment: bool, useMockData: bool, vehicleId: string): (req: Option<Request>)
    ensures req.None? <==> isDevelopment && useMockData
    ensures req.Some? ==> req.value.path == KitsPath && req.value.query == map["vehicle_id" := Text(vehicleId)]
  {
    if isDevelopment && useMockData then None
    else Some(Request(KitsPath, map["vehicle_id" := Text(vehicleId)]))
  }

  /**
   * The adapter's result. With mock data in development the outcome is
   * never looked at. Otherwise the normalised kits are returned, except
   * that development replaces an empty list, and a failure, by the mock
   * kits; production turns a failure into an empty result.
   */
  function FindWiperKitsForVehicle(isDevelopment: bool, useMockData: bool, outcome: Outcome<WiperKit>): (r: KitList)
    ensures isDevelopment && useMockData ==> r == MockResult()
    ensures isDevelopment ==> |r.wiperKits| > 0
    ensures isDevelopment && (outcome.Failed? || outcome.response.NullBody?) ==> r == MockResult()
    ensures !isDevelopment && (outcome.Failed? || outcome.response.NullBody?) ==> r == KitList([], 0)
    ensures !isDevelopment && outcome.Received? && !outcome.response.NullBody? ==>
              Normalise(outcome.response) == Some(Page(r.wiperKits, r.count))
    ensures isDevelopment && !useMockData && outcome.Received? && !outcome.response.NullBody? ==>
              var page := Normalise(outcome.response).value;
              r == if |page.items| == 0 then MockResult() else KitList(page.items, page.count)
  {
    if isDevelopment && useMockData then MockResult()
    else if outcome.Failed? then
      if isDevelopment then MockResult() else KitList([], 0)
    else
      match Normalise(outcome.response)
      case None => if isDevelopment then MockResult() else KitList([], 0)
      case Some(page) =>
        if |page.items| == 0 && isDevelopment then MockResult()
        else KitList(page.items, page.count)
  }

  /**
   * In development the result is either the mock list (count 3) or a
   * non-empty list that came back from the API; in production the mock kits
   * are never substituted for what came back.
   */
  lemma MockOnlyInDevelopment(isDevelopment: bool, useMockData: bool, outcome: Outcome<WiperKit>)
    ensures var r := FindWiperKitsForVehicle(isDevelopment, useMockData, outcome);
            (isDevelopment ==>
               r == MockResult() ||
               (outcome.Received? && r.wiperKits != [] && r.wiperKits in CarriedLists(outcome.response))) &&
            (!isDevelopment && r.wiperKits != [] ==>
               outcome.Received? && r.wiperKits in CarriedLists(outcome.response))
  {
  }
}
