/**
 * What the data adapters exchange with the commerce API: the request they
 * send (a path and a query record) and the response body of uncertain
 * shape they get back, together with the defensive normaliser every
 * adapter repeats to turn that body into a list of entities and a count.
 *
 * `T` is the adapter's entity type; the entity key of the envelope
 * (`vehicleMakes`, `vehicleModels`, `vehicleSeries`, `vehicleBodies`,
 * `vehicles`, `wiperKits`) is fixed by the adapter and is not spelled out.
 */
module Envelope {
  import opened Wrappers
  import opened JsValues

  /** A value in a request's query record. */
  datatype QueryValue = Text(text: string) | Number(number: int)

  /** A GET request to the commerce API. */
  datatype Request = Request(path: string, query: map<string, QueryValue>)

  /**
   * The `data` property of a response object.
   * - NoData: absent, null, or another falsy value;
   * - DataList: an array (it has no entity key, so `data.<key>` is undefined);
   * - DataRecord: an object, possibly with the entity key and a count. A truthy
   *   value that is neither an array nor an object behaves like a record
   *   without the key.
   */
  datatype DataField<T> =
    | NoData
    | DataList(items: seq<T>)
    | DataRecord(entities: Option<seq<T>>, count: Option<int>)

  /**
   * A response body as the adapters read it.
   * - Body: an object with an optional `data`, an optional top-level entity
   *   array and an optional top-level `count`;
   * - BareList: the body is itself an array;
   * - Primitive: a string, number or boolean (no property matches);
   * - NullBody: null or undefined; reading `response.data` throws.
   * `count` is an optional number; an entity array, once present, is truthy
   * even when it is empty.
   */
  datatype Response<T> =
    | Body(data: DataField<T>, entities: Option<seq<T>>, count: Option<int>)
    | BareList(items: seq<T>)
    | Primitive
    | NullBody

  /** How the request ended: with a parsed body, or with a thrown error. */
  datatype Outcome<T> = Failed | Received(response: Response<T>)

  /** The uniform result of normalisation. */
  datatype Page<T> = Page(items: seq<T>, count: int)

  /** Every entity array a response carries, whichever property holds it. */
  ghost function CarriedLists<T>(r: Response<T>): set<seq<T>>
  {
    match r
    case Body(data, entities, _) =>
      (if data.DataList? then {data.items} else {}) +
      (if data.DataRecord? && data.entities.Some? then {data.entities.value} else {}) +
      (if entities.Some? then {entities.value} else {})
    case BareList(items) => {items}
    case _ => {}
  }

  /** Every count a response supplies, nested or top-level. */
  ghost function SuppliedCounts<T>(r: Response<T>): set<int>
  {
    match r
    case Body(data, _, count) =>
      (if data.DataRecord? && data.count.Some? then {data.count.value} else {}) +
      (if count.Some? then {count.value} else {})
    case _ => {}
  }

  /** The nested `data.<key>` array, when the response has one. */
  function NestedEntities<T>(r: Response<T>): Option<seq<T>>
  {
    if r.Body? && r.data.DataRecord? then r.data.entities else None
  }

  /**
   * The normaliser, as each adapter writes it: `data.<key>` first, then the
   * top-level `<key>`, then `data` itself (kept only when it is an array),
   * then the body itself (kept only when it is an array). The two keyed
   * branches take `count || length`; the other two count the items. None
   * means that the normaliser threw, which only a null body makes it do.
   */
  function Normalise<T>(r: Response<T>): (p: Option<Page<T>>)
    ensures p.None? <==> r.NullBody?
    ensures p.Some? ==> p.value.items == [] || p.value.items in CarriedLists(r)
    ensures p.Some? && p.value.count != |p.value.items| ==>
              p.value.count != 0 && p.value.count in SuppliedCounts(r)
    ensures p.Some? && CarriedLists(r) == {} ==> p.value == Page([], 0)
  {
    match r
    case NullBody => None
    case Primitive => Some(Page([], 0))
    case BareList(items) => Some(Page(items, |items|))
    case Body(data, entities, count) =>
      if NestedEntities(r).Some? then
        var items := NestedEntities(r).value;
        Some(Page(items, CountOrLength(data.count, |items|)))
      else if entities.Some? then
        Some(Page(entities.value, CountOrLength(count, |entities.value|)))
      else if !data.NoData? then
        var items := if data.DataList? then data.items else [];
        Some(Page(items, |items|))
      else
        Some(Page([], 0))
  }

  /** The four shapes the normaliser recognises, as separate matchers. */
  datatype Shape = NestedKey | TopLevelKey | DataValue | WholeBody

  /** The order in which the adapters try the shapes. */
  const ShapeOrder: seq<Shape> := [NestedKey, TopLevelKey, DataValue, WholeBody]

  /** What one shape extracts from a response, when the shape applies. */
  function Match<T>(shape: Shape, r: Response<T>): Option<Page<T>>
  {
    match shape
    case NestedKey =>
      if NestedEntities(r).Some? then
        var items := NestedEntities(r).value;
        Some(Page(items, CountOrLength(r.data.count, |items|)))
      else None
    case TopLevelKey =>
      if r.Body? && r.entities.Some? then
        Some(Page(r.entities.value, CountOrLength(r.count, |r.entities.value|)))
      else None
    case DataValue =>
      if r.Body? && !r.data.NoData? then
        var items := if r.data.DataList? then r.data.items else [];
        Some(Page(items, |items|))
      else None
    case WholeBody =>
      if r.NullBody? then None
      else
        var items := if r.BareList? then r.items else [];
        Some(Page(items, |items|))
  }

  /** The result of the first shape in `shapes` that applies. */
  function FirstMatch<T>(shapes: seq<Shape>, r: Response<T>): (p: Option<Page<T>>)
    ensures p.Some? <==> exists i :: 0 <= i < |shapes| && Match(shapes[i], r).Some?
    ensures p.Some? ==> exists i :: 0 <= i < |shapes| && p == Match(shapes[i], r) &&
                                    forall j :: 0 <= j < i ==> Match(shapes[j], r).None?
    decreases |shapes|
  {
    if shapes == [] then None
    else if Match(shapes[0], r).Some? then Match(shapes[0], r)
    else
      assert forall i :: 1 <= i < |shapes| ==> shapes[i] == shapes[1..][i - 1];
      FirstMatch(shapes[1..], r)
  }

  /**
   * The normaliser is exactly "try the four shapes in their fixed order and
   * keep the first that applies".
   */
  lemma NormaliseTriesShapesInOrder<T>(r: Response<T>)
    ensures Normalise(r) == FirstMatch(ShapeOrder, r)
  {
  }

  /** An empty `data.<key>` array is still truthy: it wins over everything else. */
  lemma EmptyNestedListWins<T>(count: Option<int>, entities: Option<seq<T>>, topCount: Option<int>)
    ensures Normalise(Body(DataRecord(Some([]), count), entities, topCount)) ==
              Some(Page([], CountOrLength(count, 0)))
  {
  }

  /**
   * A count of 0 is falsy, so it gives way to the number of items in either
   * keyed branch, exactly as a missing count does.
   */
  lemma ZeroCountActsAsMissing<T>(items: seq<T>, nested: bool)
    ensures var zero := if nested then Body(DataRecord(Some(items), Some(0)), None, None)
                        else Body(NoData, Some(items), Some(0));
            var missing := if nested then Body(DataRecord(Some(items), None), None, None)
                           else Body(NoData, Some(items), None);
            Normalise(zero) == Normalise(missing) == Some(Page(items, |items|))
  {
  }

  /**
   * The same underlying list, carried by any of the four recognised shapes
   * (with no count, or with a count equal to its length), normalises to the
   * same page.
   */
  lemma ShapesAgree<T>(items: seq<T>, count: Option<int>)
    requires count.None? || count.value == |items|
    ensures Normalise(Body(DataRecord(Some(items), count), None, None)) == Some(Page(items, |items|))
    ensures Normalise(Body(NoData, Some(items), count)) == Some(Page(items, |items|))
    ensures Normalise(Body(DataList(items), None, None)) == Some(Page(items, |items|))
    ensures Normalise(BareList(items)) == Some(Page(items, |items|))
  {
  }

  /**
   * Without a keyed entity array (nested or top-level), the body's counts
   * are never read: the count is the number of items kept.
   */
  lemma UnkeyedShapesCountItems<T>(r: Response<T>)
    requires NestedEntities(r).None? && (r.Body? ==> r.entities.None?)
    requires !r.NullBody?
    ensures Normalise(r).Some? && Normalise(r).value.count == |Normalise(r).value.items|
    ensures r.Body? && r.data.DataList? ==> Normalise(r).value.items == r.data.items
    ensures r.BareList? ==> Normalise(r).value.items == r.items
  {
  }
}
