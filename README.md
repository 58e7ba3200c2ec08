# Vehicle selector and catalogue adapters, in Dafny

This project models the storefront's vehicle finder. A shopper picks a make, then a model, then a series (a year range), then a body style when the model has any. The finder then looks up the matching vehicle and offers its details page.

The model covers four parts.

- **The selector component.** The class `Selector.VehicleSelector` has one field per React state slot. It has one method per user selection, and each method folds in the effects React runs after that render. One method per request completion applies a fetch's success or failure. The functions `SelectionComplete`, `DetailsButtonState`, `ViewDetailsTarget` and `SelectionSummary` are the values the component derives for rendering.
- **The response normaliser.** Every data adapter repeats the same code to turn a response body of uncertain shape into a list and a count (module `Envelope`). The four shapes are tried in order:
  - `data.<key>`;
  - the top-level `<key>`;
  - `data` itself when it is an array;
  - the body itself when it is an array.

  JavaScript truthiness is kept. An empty array still counts as present. A count of 0 gives way to the length, because of `||`.
- **Offset pagination.** The four list adapters share the page arithmetic and the `nextPage` cursor (module `Pagination`).
- **The adapters and the series drop-down.** The list adapters are makes, models, series and bodies. There are also the vehicle lookup (`findVehicle`) and the wiper-kit finder with its development mock fallback. The series drop-down's year-range caption is modelled as well.

A request is modelled by what it sends (`Envelope.Request`: a path and a query record) and by how it ended (`Envelope.Outcome`: it failed, or it received a body). Each adapter is a function from that outcome and its paging parameters to its result. A null body makes the normaliser throw; the adapter's `catch` then applies, so a null body is handled like a failed request.

### Behaviour of the selector as written

After a render, the effects run in declaration order: the make effect, the model effect, then the vehicle effect. Each one sees the values of that render. This has two consequences the model keeps.

- **Stale lookups.** Suppose model and series are already chosen and the shopper picks another make. The make effect clears model, series and body. But the vehicle effect of the same render still sees the old model, series and body, so it starts a lookup for the new make with the old model and series. Choosing another model while a series is chosen does the same with the old series. See the contracts of `SelectMake` and `SelectModel`.
- **The lookup does not wait for a body.** A lookup starts as soon as make, model and series are all set. This holds even when the model has bodies and none is chosen yet, although the details button only appears once a body is chosen. `SelectionComplete` waits for a body when the model has bodies; the vehicle effect does not (src/components/vehicle-selector.tsx:137), so `VehicleLookup` issues a lookup without one.

Choosing the value that is already selected changes nothing: React skips the update and no effect runs. Requests are not tied to the selection that started them, so a late response is stored whatever is selected by then. The completion methods can be applied in any order to show this.

## Model

| member | source | states |
|---|---|---|
| Selector.VehicleSelector.constructor | src/components/vehicle-selector.tsx:22-44 | Mounting leaves every slot at its initial value: nothing selected, lists empty, counts 0, no loading. The invariant `Chained` then holds. |
| Selector.VehicleSelector.ClearBelowModel | src/components/vehicle-selector.tsx:83-87 | The resets the make and model effects share: series, body, both lists and the matched vehicle become empty, and nothing else changes. |
| Selector.VehicleSelector.MakeEffect | src/components/vehicle-selector.tsx:47-78 | Clears model, series, body, their three lists and the matched vehicle. Starts a models fetch exactly when the make is non-empty, and then sets the models loading flag. The makes list is not in its frame. |
| Selector.VehicleSelector.ModelEffect | src/components/vehicle-selector.tsx:81-129 | Clears series, body, both lists and the matched vehicle. For a non-empty model it starts a series fetch and then a bodies fetch and sets both loading flags. Make and the models list are not in its frame. |
| Selector.VehicleSelector.VehicleEffect | src/components/vehicle-selector.tsx:132-157 | Always clears the matched vehicle. Starts exactly the lookup `VehicleLookup` decides on, and sets the loading flag only then. |
| Selector.VehicleLookup | src/components/vehicle-selector.tsx:137-147 | A lookup is issued if and only if make, model and series are all non-empty. It carries the body as it is, null included, and there is at most one. |
| Selector.VehicleSelector.CanSelectMake | src/components/vehicle-selector.tsx:233-237 | The make drop-down can fire only when there are makes: it is disabled for an empty list. This is the precondition of `SelectMake`. |
| Selector.VehicleSelector.CanSelectModel | src/components/vehicle-selector.tsx:241-264 | The model drop-down is rendered only under a truthy make and is enabled only when models are not loading and the list is non-empty. This is the precondition of `SelectModel`. |
| Selector.VehicleSelector.CanSelectSeries | src/components/vehicle-selector.tsx:269-292 | The series drop-down is rendered only under a truthy model and is enabled only when series are not loading and the list is non-empty. This is the precondition of `SelectSeries`. |
| Selector.VehicleSelector.CanSelectBody | src/components/vehicle-selector.tsx:297-314 | The body drop-down is rendered only under a truthy model when bodies are not loading and the list is non-empty. This is the precondition of `SelectBody`. |
| Selector.VehicleSelector.SelectMake | src/components/vehicle-selector.tsx:159-161 | Re-selecting the same make changes nothing. A new make clears every deeper slot and list and the matched vehicle, and starts the models fetch. The lookup it starts uses the new make with the old model, series and body. It keeps `Chained` and leaves the makes list alone. |
| Selector.VehicleSelector.SelectModel | src/components/vehicle-selector.tsx:163-165 | Re-selecting the same model changes nothing. A new model clears series, body, both lists and the matched vehicle, and starts series then bodies. The lookup uses the old series and body. Make and the models list are unchanged. |
| Selector.VehicleSelector.SelectSeries | src/components/vehicle-selector.tsx:167-169 | A new series clears the matched vehicle and starts the lookup for the current make, model and body with the new series. Everything else is unchanged. |
| Selector.VehicleSelector.SelectBody | src/components/vehicle-selector.tsx:171-173 | A new body clears the matched vehicle and starts a lookup that carries the body when make, model and series are set. Everything else is unchanged. |
| Selector.VehicleSelector.ModelsLoaded | src/components/vehicle-selector.tsx:68-74 | A resolved models fetch stores its list and count and ends loading. Nothing else changes. |
| Selector.VehicleSelector.ModelsFailed | src/components/vehicle-selector.tsx:70-74 | A rejected models fetch only ends loading. The list keeps what it had. |
| Selector.VehicleSelector.SeriesLoaded | src/components/vehicle-selector.tsx:100-106 | A resolved series fetch stores its list and count and ends its own loading. The bodies' list and flag are not in its frame. |
| Selector.VehicleSelector.SeriesFailed | src/components/vehicle-selector.tsx:102-106 | A rejected series fetch ends only its own loading flag. The bodies' list and flag are unaffected. |
| Selector.VehicleSelector.BodiesLoaded | src/components/vehicle-selector.tsx:117-123 | A resolved bodies fetch stores its list and count and ends its own loading. The series' list and flag are unaffected. |
| Selector.VehicleSelector.BodiesFailed | src/components/vehicle-selector.tsx:119-123 | A rejected bodies fetch ends only its own loading flag. The series' list and flag are unaffected. |
| Selector.VehicleSelector.VehicleResolved | src/components/vehicle-selector.tsx:148-153 | The lookup's result, a vehicle or null, becomes the matched vehicle and loading ends. |
| Selector.VehicleSelector.VehicleLookupFailed | src/components/vehicle-selector.tsx:149-153 | A rejected lookup only ends loading. |
| Selector.VehicleSelector.SelectionComplete | src/components/vehicle-selector.tsx:211-217 | Complete if and only if make, model and series are set and either the bodies list is empty or a body is set. A complete selection always has a lookup issued for it. |
| Selector.VehicleSelector.DetailsButtonState | src/components/vehicle-selector.tsx:340-373 | Hidden exactly when the selection is incomplete. Otherwise it shows "finding" while the lookup runs, then the details button if a vehicle matched, and "no match" otherwise. |
| Selector.VehicleSelector.ViewDetailsTarget | src/components/vehicle-selector.tsx:187-191 | Navigation happens if and only if a vehicle matched. The route is "/vehicle/" followed by exactly that vehicle's id. |
| Selector.SelectedMakeName | src/components/vehicle-selector.tsx:194-196 | The looked-up name is present if and only if a make is selected and present in the makes list. It is the name of the first make with that id. (The summary renders a line only for a non-empty name; rendering is not modelled.) |
| Selector.SelectedModelName | src/components/vehicle-selector.tsx:198-200 | The same lookup in the loaded models: the first model with the selected id. |
| Selector.SelectedSeriesEntry | src/components/vehicle-selector.tsx:202-204 | The first loaded series with the selected id, present if and only if the selected series is set and in the list. |
| Selector.SelectedBodyName | src/components/vehicle-selector.tsx:206-208 | The same lookup in the loaded bodies: the first body with the selected id. |
| Selector.VehicleSelector.SelectionSummary | src/components/vehicle-selector.tsx:319-337 | The summary's values are the four lookups. Its year range is present exactly when the selected series is found, and it is that series' caption. Which of them the block renders (only truthy ones, and only when some slot is set) is not modelled. |
| Selector.ChooseMakeAndModel | src/components/vehicle-selector.tsx:47-129 | From mounting, choosing a make, loading its models and choosing a model issues exactly models, series and bodies, and no lookup yet. |
| Selector.SelectWithoutBody | src/components/vehicle-selector.tsx:132-191 | Continuing with a model without bodies and choosing a series issues one lookup with no body. A vehicle resolved by it is offered at "/vehicle/" and its id. |
| JsValues.CountOrLength | src/lib/data/vehicle-makes.ts:66 | `count \|\| length`: a supplied non-zero count wins. A missing or zero count gives the length. A result of 0 means the list was empty. |
| JsValues.Find | src/components/vehicle-selector.tsx:195 | `Array.find`: absent if and only if no element matches. Otherwise it is an element that matches, with no match before it. |
| JsValues.NumberToString | src/components/vehicle-series-select.tsx:29 | An integer in a template literal: decimal digits, with a leading '-' for a negative value, whose digits read back to the value (to `-n` after the sign for a negative one). |
| JsValues.NatToStringRoundTrip | src/components/vehicle-series-select.tsx:32 | Reading back the digits of a non-negative year gives the year. |
| Envelope.Normalise | src/lib/data/vehicle-makes.ts:63-80 | It throws if and only if the body is null. Items are empty or one of the lists the body carries. The count differs from the item count only when it is a supplied non-zero count. A body carrying no list gives ([], 0). |
| Envelope.FirstMatch | src/lib/data/vehicle-models.ts:67-84 | The first of a list of shape matchers that applies, and none if and only if none applies. |
| Envelope.NormaliseTriesShapesInOrder | src/lib/data/vehicle-models.ts:67-84 | The normaliser equals trying `data.<key>`, then `<key>`, then `data`, then the body, and keeping the first that applies. |
| Envelope.EmptyNestedListWins | src/lib/data/vehicle-makes.ts:63-66 | An empty `data.<key>` array is truthy. It wins over a top-level list, and its count falls back to 0. |
| Envelope.ZeroCountActsAsMissing | src/lib/data/vehicle-bodies.ts:66-73 | In either keyed branch, a count of 0 gives the same page as a missing count: the item count. |
| Envelope.ShapesAgree | src/lib/data/vehicles.ts:68-80 | One list carried by any of the four shapes, without a count or with a matching one, normalises to the same page. |
| Envelope.UnkeyedShapesCountItems | src/lib/data/vehicle-series.ts:76-84 | Without a keyed list, the count is always the number of items kept: the `data` array, the bare array, or none. |
| Pagination.NextPage | src/lib/data/vehicle-models.ts:86 | There is a next page if and only if the next page's offset is below the count, that is `count > offset + limit`. The cursor is then `pageParam + 1`. |
| Pagination.ListPage | src/lib/data/vehicle-makes.ts:59-96 | Any failure, a thrown request or a null body, gives `{[], 0, null}`. Otherwise items and count are the normalised page, and the cursor follows `NextPage`. |
| Pagination.CursorCoversCollection | src/lib/data/vehicle-makes.ts:82 | Following `nextPage` from a page visits consecutive pages. Each page after the first starts below the count, and the pages visited reach past the end of the collection. |
| Pagination.DefaultPagingSinglePage | src/lib/data/vehicle-series.ts:87 | With the defaults (page 1, limit 100) the offset is 0, and a count of 100 or fewer gives no next page. |
| MakesAdapter.ListVehicleMakes | src/lib/data/vehicle-makes.ts:29-96 | The request goes to the makes path with exactly `limit` and `offset = (pageParam-1)*limit`. The listing is the shared normalised listing with its failure fallback. |
| ModelsAdapter.ListVehicleModels | src/lib/data/vehicle-models.ts:30-99 | As for makes, with `make_id` added to the query. |
| SeriesAdapter.ListVehicleSeries | src/lib/data/vehicle-series.ts:31-100 | As for makes, with `model_id` added to the query. |
| BodiesAdapter.ListVehicleBodies | src/lib/data/vehicle-bodies.ts:29-98 | As for makes, with `model_id` added to the query. |
| VehiclesAdapter.VehicleRequest | src/lib/data/vehicles.ts:43-52 | The query always holds `make_id`, `model_id` and `series_id`. It holds `body_id` if and only if the body is truthy, so null and "" leave it out. |
| VehiclesAdapter.FindVehicle | src/lib/data/vehicles.ts:65-88 | Null on failure. Otherwise null if and only if the normalised list is empty, and else its first element. |
| VehiclesAdapter.FoundVehicleHeadsCarriedList | src/lib/data/vehicles.ts:83 | A found vehicle is the first element of a list the response actually carried. |
| WiperKitsAdapter.MockResult | src/lib/data/wiper-kits.ts:118-152 | The mock result is the three mock kits with count 3, their length. |
| WiperKitsAdapter.KitsRequest | src/lib/data/wiper-kits.ts:40-59 | No request is sent if and only if development and mock data are both on. Otherwise the request holds `vehicle_id` only. |
| WiperKitsAdapter.FindWiperKitsForVehicle | src/lib/data/wiper-kits.ts:38-115 | In development with the mock flag the result is the mock. In development the list is never empty: a failure or a null body gives the mock, and so does an empty normalised page. In production a failure gives ([], 0), and otherwise the normalised page is returned unchanged, even when empty. |
| WiperKitsAdapter.MockOnlyInDevelopment | src/lib/data/wiper-kits.ts:86-113 | In development the result is either the mock or a non-empty list the response carried. In production any non-empty result came from the response. |
| SeriesSelect.FormatYearRange | src/components/vehicle-series-select.tsx:24-33 | The caption starts with the start year and '-'. It ends in "Present" if and only if `end_year >= currentYear`; the rest after the start year and '-' is then exactly "Present", and otherwise exactly the end year. The selector's own copy, at src/components/vehicle-selector.tsx:176-184, is the same. |
| SeriesSelect.YearRangeRoundTrip | src/components/vehicle-series-select.tsx:24-33 | For non-negative years, the caption can be read back: the start year always, and the end year when the series has ended. |
| SeriesSelect.ClosedLabelsDistinguishYears | src/components/vehicle-series-select.tsx:32 | Two ended series with non-negative years get the same caption only when their start and end years agree. |
| SeriesSelect.SeriesOptions | src/components/vehicle-series-select.tsx:44-48 | Exactly one option per series, in list order. Key and value are the series id, and the caption is its year range. |
| SeriesSelect.OptionValueIdentifiesSeries | src/components/vehicle-series-select.tsx:44-48 | The value of any option, looked up in the list with `find`, finds a series with that id; when the ids are distinct, it is the series the option was made from. |

## Left out

- The network call (`sdk.client.fetch`), the cache and revalidate options, and logging. A request is reduced to its path and query. Its outcome is an input.
- `JSON.stringify` of the wiper-kit response before normalising. It is logging only. Its own failures (cyclic or BigInt values) cannot arise from a parsed JSON body.
- JSX rendering, labels and buttons, and the separate make, model and body drop-down components. The rendering conditions that gate a selection become the `CanSelect*` preconditions.
- `router.push`: only the route it is given is modelled (`ViewDetailsTarget`).
- The clock: `new Date().getFullYear()` is the `currentYear` parameter.
- `process.env`: `NODE_ENV === "development"` and `NEXT_PUBLIC_USE_MOCK_DATA === "true"` are the boolean parameters `isDevelopment` and `useMockData`.
- Asynchronous interleaving. Each completion is an explicit method applied in whatever order the caller chooses. Nothing ties a response to the selection that started it, and no "latest selection wins" property is claimed, because the code has no such guard.
- Prices are JavaScript floats. They are carried as opaque `real` values and nothing is computed from them.
- JavaScript numbers are taken as unbounded integers: counts, `pageParam`, `limit` and the start and end years. A `NaN`, a fractional value, and the loss of precision beyond 2^53 are not modelled.
- JsValues.NumberToString: does not model the exponent notation JavaScript uses for magnitudes of 10^21 and more, which no year reaches.
- An entity key holding a truthy value that is not an array is not modelled. The model only has arrays (present) or absent; the code would return that value as the list.
- SeriesSelect.YearRangeRoundTrip: stated only for non-negative years, because a negative start year puts a '-' inside the number.
