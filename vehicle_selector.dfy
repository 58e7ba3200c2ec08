/**
 * The cascading vehicle selector: make, then model, then series (year
 * range), then an optional body, resolved to one vehicle.
 *
 * The component's state slots are the fields of a class. A user selection
 * is one method: it sets its slot and then applies the effects that React
 * runs after that render, in declaration order and with that render's
 * values (the make effect, the model effect, the vehicle effect); the
 * resets they make cause one more render, whose effects only reset again.
 * Each method returns the adapter calls the effects start, in order. The
 * completion of each call is a separate method, applied whenever the
 * caller chooses: nothing checks that a response still belongs to the
 * current selection.
 */
module Selector {
  import opened Wrappers
  import opened JsValues
  import opened Pagination
  import opened MakesAdapter
  import opened ModelsAdapter
  import opened SeriesAdapter
  import opened BodiesAdapter
  import opened VehiclesAdapter
  import opened SeriesSelect

  /** An adapter call started by one of the selector's effects. */
  datatype Call =
    | ListModels(makeId: string)
    | ListSeries(modelId: string)
    | ListBodies(modelId: string)
    | LookUpVehicle(makeId: string, modelId: string, seriesId: string, bodyId: Option<string>)

  /** Every state slot of the component at one moment. */
  datatype Snapshot = Snapshot(
    selectedMake: Option<string>,
    selectedModel: Option<string>,
    selectedSeries: Option<string>,
    selectedBody: Option<string>,
    vehicleModels: seq<VehicleModel>,
    modelCount: int,
    isLoadingModels: bool,
    vehicleSeries: seq<VehicleSeries>,
    seriesCount: int,
    isLoadingSeries: bool,
    vehicleBodies: seq<VehicleBody>,
    bodyCount: int,
    isLoadingBodies: bool,
    matchedVehicle: Option<Vehicle>,
    isLoadingVehicle: bool)

  /** The state right after mounting: nothing selected, nothing loaded or loading. */
  const InitialSnapshot: Snapshot :=
    Snapshot(None, None, None, None, [], 0, false, [], 0, false, [], 0, false, None, false)

  /**
   * The vehicle effect's decision: a lookup is started exactly when make,
   * model and series are all truthy, with the body passed as it is, null
   * included.
   */
  function VehicleLookup(make: Option<string>, model: Option<string>, series: Option<string>, body: Option<string>)
    : (calls: seq<Call>)
    ensures |calls| <= 1
    ensures calls != [] <==> Truthy(make) && Truthy(model) && Truthy(series)
    ensures calls != [] ==> calls[0] == LookUpVehicle(make.value, model.value, series.value, body)
  {
    if Truthy(make) && Truthy(model) && Truthy(series) then
      [LookUpVehicle(make.value, model.value, series.value, body)]
    else
      []
  }

  /** What the "view details" area below the selector shows. */
  datatype DetailsButton = Hidden | FindingVehicles | ViewVehicleDetails | NoMatchingVehicles

  /**
   * The values the selection summary looks up (absent when not selected or
   * not found); the summary renders a line only for a non-empty one.
   */
  datatype Summary = Summary(
    makeName: Option<string>,
    modelName: Option<string>,
    yearRange: Option<string>,
    bodyName: Option<string>)

  class VehicleSelector {
    const initialVehicleMakes: seq<VehicleMake>
    const makeCount: int

    var selectedMake: Option<string>
    var selectedModel: Option<string>
    var selectedSeries: Option<string>
    var selectedBody: Option<string>

    var vehicleModels: seq<VehicleModel>
    var modelCount: int
    var isLoadingModels: bool

    var vehicleSeries: seq<VehicleSeries>
    var seriesCount: int
    var isLoadingSeries: bool

    var vehicleBodies: seq<VehicleBody>
    var bodyCount: int
    var isLoadingBodies: bool

    var matchedVehicle: Option<Vehicle>
    var isLoadingVehicle: bool

    function State(): Snapshot
      reads this
    {
      Snapshot(selectedMake, selectedModel, selectedSeries, selectedBody,
               vehicleModels, modelCount, isLoadingModels,
               vehicleSeries, seriesCount, isLoadingSeries,
               vehicleBodies, bodyCount, isLoadingBodies,
               matchedVehicle, isLoadingVehicle)
    }

    /**
     * The dependent chain: a model is chosen only under a non-empty make,
     * and a series or a body only under a non-empty model.
     */
    predicate Chained()
      reads this
    {
      && (selectedModel.Some? ==> Truthy(selectedMake))
      && (selectedSeries.Some? ==> Truthy(selectedModel))
      && (selectedBody.Some? ==> Truthy(selectedModel))
    }

    /** Mounting: every slot at its initial value; the three mount-time effects find nothing selected. */
    constructor (initialVehicleMakes: seq<VehicleMake>, makeCount: int)
      ensures this.initialVehicleMakes == initialVehicleMakes && this.makeCount == makeCount
      ensures State() == InitialSnapshot
      ensures Chained()
    {
      this.initialVehicleMakes := initialVehicleMakes;
      this.makeCount := makeCount;
      selectedMake, selectedModel, selectedSeries, selectedBody := None, None, None, None;
      vehicleModels, modelCount, isLoadingModels := [], 0, false;
      vehicleSeries, seriesCount, isLoadingSeries := [], 0, false;
      vehicleBodies, bodyCount, isLoadingBodies := [], 0, false;
      matchedVehicle, isLoadingVehicle := None, false;
    }

    /** The make drop-down can fire: it is disabled when there are no makes. */
    predicate CanSelectMake()
      reads this
    {
      |initialVehicleMakes| > 0
    }

    /** The model drop-down is shown under a make and is enabled once models have loaded. */
    predicate CanSelectModel()
      reads this
    {
      Truthy(selectedMake) && !isLoadingModels && |vehicleModels| > 0
    }

    /** The series drop-down is shown under a model and is enabled once series have loaded. */
    predicate CanSelectSeries()
      reads this
    {
      Truthy(selectedModel) && !isLoadingSeries && |vehicleSeries| > 0
    }

    /** The body drop-down is shown only under a model whose bodies have loaded and are not empty. */
    predicate CanSelectBody()
      reads this
    {
      Truthy(selectedModel) && !isLoadingBodies && |vehicleBodies| > 0
    }

    /**
     * The resets the make effect and the model effect share: series, body,
     * both lists and the matched vehicle go back to empty.
     */
    method ClearBelowModel()
      modifies this`selectedSeries, this`vehicleSeries, this`selectedBody, this`vehicleBodies, this`matchedVehicle
      ensures selectedSeries == None && vehicleSeries == []
      ensures selectedBody == None && vehicleBodies == []
      ensures matchedVehicle == None
    {
      selectedSeries, vehicleSeries := None, [];
      selectedBody, vehicleBodies := None, [];
      matchedVehicle := None;
    }

    /**
     * The make effect, run after a render in which the make changed: it
     * clears model, series, body, their lists and the matched vehicle and,
     * when the make is non-empty, starts loading its models.
     */
    method MakeEffect() returns (calls: seq<Call>)
      modifies this`selectedModel, this`vehicleModels, this`isLoadingModels
      modifies this`selectedSeries, this`vehicleSeries, this`selectedBody, this`vehicleBodies, this`matchedVehicle
      ensures selectedModel == None && vehicleModels == []
      ensures selectedSeries == None && vehicleSeries == []
      ensures selectedBody == None && vehicleBodies == []
      ensures matchedVehicle == None
      ensures isLoadingModels == (old(isLoadingModels) || Truthy(selectedMake))
      ensures calls == if Truthy(selectedMake) then [ListModels(selectedMake.value)] else []
    {
      selectedModel, vehicleModels := None, [];
      ClearBelowModel();
      calls := [];
      if Truthy(selectedMake) {
        isLoadingModels := true;
        calls := [ListModels(selectedMake.value)];
      }
    }

    /**
     * The model effect, run after a render in which the model changed: it
     * clears series, body, both lists and the matched vehicle and, when the
     * model is non-empty, starts loading its series and then its bodies.
     */
    method ModelEffect() returns (calls: seq<Call>)
      modifies this`isLoadingSeries, this`isLoadingBodies
      modifies this`selectedSeries, this`vehicleSeries, this`selectedBody, this`vehicleBodies, this`matchedVehicle
      ensures selectedSeries == None && vehicleSeries == []
      ensures selectedBody == None && vehicleBodies == []
      ensures matchedVehicle == None
      ensures isLoadingSeries == (old(isLoadingSeries) || Truthy(selectedModel))
      ensures isLoadingBodies == (old(isLoadingBodies) || Truthy(selectedModel))
      ensures calls == if Truthy(selectedModel) then [ListSeries(selectedModel.value), ListBodies(selectedModel.value)] else []
    {
      ClearBelowModel();
      calls := [];
      if Truthy(selectedModel) {
        isLoadingSeries := true;
        isLoadingBodies := true;
        calls := [ListSeries(selectedModel.value), ListBodies(selectedModel.value)];
      }
    }

    /**
     * The vehicle effect, run after a render in which any of the four
     * selections changed, with the selections that render saw: it clears
     * the matched vehicle and starts the lookup `VehicleLookup` decides on.
     */
    method VehicleEffect(make: Option<string>, model: Option<string>, series: Option<string>, body: Option<string>)
      returns (calls: seq<Call>)
      modifies this`matchedVehicle, this`isLoadingVehicle
      ensures calls == VehicleLookup(make, model, series, body)
      ensures matchedVehicle == None
      ensures isLoadingVehicle == (old(isLoadingVehicle) || calls != [])
    {
      matchedVehicle := None;
      calls := VehicleLookup(make, model, series, body);
      if calls != [] {
        isLoadingVehicle := true;
      }
    }

    /**
     * `handleMakeSelect`. Choosing the make already chosen changes nothing.
     * Otherwise the make effect clears model, series, body, their lists and
     * the matched vehicle and, for a non-empty make, starts loading models;
     * the vehicle effect of the same render still sees the previous model,
     * series and body, so it starts a lookup with the new make when the
     * previous model and series were set. The next render sees no model,
     * series or body: its model and vehicle effects reset what is already
     * reset and start nothing. The makes list is never touched.
     */
    method SelectMake(makeId: string) returns (calls: seq<Call>)
      requires Chained() && CanSelectMake()
      modifies this`selectedMake, this`selectedModel, this`vehicleModels, this`isLoadingModels
      modifies this`selectedSeries, this`vehicleSeries, this`selectedBody, this`vehicleBodies, this`matchedVehicle, this`isLoadingVehicle
      ensures Chained()
      ensures old(selectedMake) == Some(makeId) ==> unchanged(this) && calls == []
      ensures old(selectedMake) != Some(makeId) ==>
                && selectedMake == Some(makeId)
                && selectedModel == None && vehicleModels == []
                && selectedSeries == None && vehicleSeries == []
                && selectedBody == None && vehicleBodies == []
                && matchedVehicle == None
                && isLoadingModels == (old(isLoadingModels) || makeId != "")
      ensures old(selectedMake) != Some(makeId) ==>
                var lookup := VehicleLookup(Some(makeId), old(selectedModel), old(selectedSeries), old(selectedBody));
                && isLoadingVehicle == (old(isLoadingVehicle) || lookup != [])
                && calls == (if makeId != "" then [ListModels(makeId)] else []) + lookup
    {
      if selectedMake == Some(makeId) {
        return [];
      }
      var model, series, body := selectedModel, selectedSeries, selectedBody;
      selectedMake := Some(makeId);
      var fetches := MakeEffect();
      var lookup := VehicleEffect(selectedMake, model, series, body);
      calls := fetches + lookup;
    }

    /**
     * `handleModelSelect`. Choosing the model already chosen changes
     * nothing. Otherwise the model effect clears series, body, both lists
     * and the matched vehicle and, for a non-empty model, starts loading
     * series and bodies; the vehicle effect of the same render sees the
     * previous series and body. Make and the models list are untouched.
     */
    method SelectModel(modelId: string) returns (calls: seq<Call>)
      requires Chained() && CanSelectModel()
      modifies this`selectedModel, this`isLoadingSeries, this`isLoadingBodies
      modifies this`selectedSeries, this`vehicleSeries, this`selectedBody, this`vehicleBodies, this`matchedVehicle, this`isLoadingVehicle
      ensures Chained()
      ensures old(selectedModel) == Some(modelId) ==> unchanged(this) && calls == []
      ensures old(selectedModel) != Some(modelId) ==>
                && selectedModel == Some(modelId)
                && selectedSeries == None && vehicleSeries == []
                && selectedBody == None && vehicleBodies == []
                && matchedVehicle == None
                && isLoadingSeries == (old(isLoadingSeries) || modelId != "")
                && isLoadingBodies == (old(isLoadingBodies) || modelId != "")
      ensures old(selectedModel) != Some(modelId) ==>
                var lookup := VehicleLookup(old(selectedMake), Some(modelId), old(selectedSeries), old(selectedBody));
                && isLoadingVehicle == (old(isLoadingVehicle) || lookup != [])
                && calls == (if modelId != "" then [ListSeries(modelId), ListBodies(modelId)] else []) + lookup
    {
      if selectedModel == Some(modelId) {
        return [];
      }
      var series, body := selectedSeries, selectedBody;
      selectedModel := Some(modelId);
      var fetches := ModelEffect();
      var lookup := VehicleEffect(selectedMake, selectedModel, series, body);
      calls := fetches + lookup;
    }

    /**
     * `handleSeriesSelect`: the vehicle effect clears the matched vehicle
     * and starts a lookup for the current make and model, the new series
     * and the current body (possibly none).
     */
    method SelectSeries(seriesId: string) returns (calls: seq<Call>)
      requires Chained() && CanSelectSeries()
      modifies this`selectedSeries, this`matchedVehicle, this`isLoadingVehicle
      ensures Chained()
      ensures old(selectedSeries) == Some(seriesId) ==> unchanged(this) && calls == []
      ensures old(selectedSeries) != Some(seriesId) ==>
                var lookup := VehicleLookup(old(selectedMake), old(selectedModel), Some(seriesId), old(selectedBody));
                && selectedSeries == Some(seriesId)
                && matchedVehicle == None
                && isLoadingVehicle == (old(isLoadingVehicle) || lookup != [])
                && calls == lookup
    {
      if selectedSeries == Some(seriesId) {
        return [];
      }
      selectedSeries := Some(seriesId);
      calls := VehicleEffect(selectedMake, selectedModel, selectedSeries, selectedBody);
    }

    /**
     * `handleBodySelect`: the vehicle effect clears the matched vehicle and,
     * when make, model and series are set, starts a lookup with the body.
     */
    method SelectBody(bodyId: string) returns (calls: seq<Call>)
      requires Chained() && CanSelectBody()
      modifies this`selectedBody, this`matchedVehicle, this`isLoadingVehicle
      ensures Chained()
      ensures old(selectedBody) == Some(bodyId) ==> unchanged(this) && calls == []
      ensures old(selectedBody) != Some(bodyId) ==>
                var lookup := VehicleLookup(old(selectedMake), old(selectedModel), old(selectedSeries), Some(bodyId));
                && selectedBody == Some(bodyId)
                && matchedVehicle == None
                && isLoadingVehicle == (old(isLoadingVehicle) || lookup != [])
                && calls == lookup
    {
      if selectedBody == Some(bodyId) {
        return [];
      }
      selectedBody := Some(bodyId);
      calls := VehicleEffect(selectedMake, selectedModel, selectedSeries, selectedBody);
    }

    /** The models request resolved: its list and count are stored and loading ends. */
    method ModelsLoaded(listing: Listing<VehicleModel>)
      modifies this`vehicleModels, this`modelCount, this`isLoadingModels
      ensures vehicleModels == listing.items && modelCount == listing.count && !isLoadingModels
    {
      vehicleModels := listing.items;
      modelCount := listing.count;
      isLoadingModels := false;
    }

    /** The models request rejected: only loading ends. */
    method ModelsFailed()
      modifies this`isLoadingModels
      ensures !isLoadingModels
    {
      isLoadingModels := false;
    }

    /** The series request resolved; the bodies' list and flag are not touched. */
    method SeriesLoaded(listing: Listing<VehicleSeries>)
      modifies this`vehicleSeries, this`seriesCount, this`isLoadingSeries
      ensures vehicleSeries == listing.items && seriesCount == listing.count && !isLoadingSeries
    {
      vehicleSeries := listing.items;
      seriesCount := listing.count;
      isLoadingSeries := false;
    }

    /** The series request rejected: only its loading flag changes, the bodies' list and flag are not touched. */
    method SeriesFailed()
      modifies this`isLoadingSeries
      ensures !isLoadingSeries
    {
      isLoadingSeries := false;
    }

    /** The bodies request resolved; the series' list and flag are not touched. */
    method BodiesLoaded(listing: Listing<VehicleBody>)
      modifies this`vehicleBodies, this`bodyCount, this`isLoadingBodies
      ensures vehicleBodies == listing.items && bodyCount == listing.count && !isLoadingBodies
    {
      vehicleBodies := listing.items;
      bodyCount := listing.count;
      isLoadingBodies := false;
    }

    /** The bodies request rejected: only its loading flag changes, the series' list and flag are not touched. */
    method BodiesFailed()
      modifies this`isLoadingBodies
      ensures !isLoadingBodies
    {
      isLoadingBodies := false;
    }

    /** The lookup resolved (to a vehicle or to null): it becomes the matched vehicle. */
    method VehicleResolved(vehicle: Option<Vehicle>)
      modifies this`matchedVehicle, this`isLoadingVehicle
      ensures matchedVehicle == vehicle && !isLoadingVehicle
    {
      matchedVehicle := vehicle;
      isLoadingVehicle := false;
    }

    /** The lookup rejected: only loading ends. */
    method VehicleLookupFailed()
      modifies this`isLoadingVehicle
      ensures !isLoadingVehicle
    {
      isLoadingVehicle := false;
    }

    /** `bodyIsRequired`: the model has at least one body. */
    predicate BodyIsRequired()
      reads this
    {
      |vehicleBodies| > 0
    }

    /**
     * `selectionComplete`: make, model and series are set and, when the
     * model has bodies, a body is set too. A complete selection is always
     * one the vehicle effect starts a lookup for, but the effect does not
     * wait for a body.
     */
    function SelectionComplete(): (complete: bool)
      reads this
      ensures complete <==> Truthy(selectedMake) && Truthy(selectedModel) && Truthy(selectedSeries) &&
                            (|vehicleBodies| == 0 || Truthy(selectedBody))
      ensures complete ==> VehicleLookup(selectedMake, selectedModel, selectedSeries, selectedBody) != []
    {
      var allRequiredFieldsSelected := Truthy(selectedMake) && Truthy(selectedModel) && Truthy(selectedSeries);
      allRequiredFieldsSelected && (!BodyIsRequired() || Truthy(selectedBody))
    }

    /**
     * The area under the selector: hidden until the selection is complete,
     * then a disabled "finding" button while the lookup runs, the details
     * button when a vehicle matched, and a disabled "no match" button
     * otherwise.
     */
    function DetailsButtonState(): (b: DetailsButton)
      reads this
      ensures b.Hidden? <==> !SelectionComplete()
      ensures b.FindingVehicles? <==> SelectionComplete() && isLoadingVehicle
      ensures b.ViewVehicleDetails? <==> SelectionComplete() && !isLoadingVehicle && matchedVehicle.Some?
    {
      if !SelectionComplete() then Hidden
      else if isLoadingVehicle then FindingVehicles
      else if matchedVehicle.Some? then ViewVehicleDetails
      else NoMatchingVehicles
    }

    /**
     * `handleViewVehicleDetails`: the route it navigates to, if any. It
     * navigates only when a vehicle matched, to "/vehicle/" and that
     * vehicle's id.
     */
    function ViewDetailsTarget(): (route: Option<string>)
      reads this
      ensures route.Some? <==> matchedVehicle.Some?
      ensures route.Some? ==> |route.value| >= 9 && route.value[..9] == "/vehicle/" &&
                              route.value[9..] == matchedVehicle.value.id
    {
      if matchedVehicle.Some? then Some("/vehicle/" + matchedVehicle.value.id) else None
    }

    /**
     * The selection summary: each selected id looked up in its list, the
     * series shown through its year range.
     */
    function SelectionSummary(currentYear: int): (s: Summary)
      reads this
      ensures s.makeName == SelectedMakeName(initialVehicleMakes, selectedMake)
      ensures s.modelName == SelectedModelName(vehicleModels, selectedModel)
      ensures s.yearRange.Some? <==> SelectedSeriesEntry(vehicleSeries, selectedSeries).Some?
      ensures s.yearRange.Some? ==>
                s.yearRange.value == FormatYearRange(SelectedSeriesEntry(vehicleSeries, selectedSeries).value, currentYear)
      ensures s.bodyName == SelectedBodyName(vehicleBodies, selectedBody)
    {
      var yearRange :=
        match SelectedSeriesEntry(vehicleSeries, selectedSeries)
        case Some(series) => Some(FormatYearRange(series, currentYear))
        case None => None;
      Summary(SelectedMakeName(initialVehicleMakes, selectedMake),
              SelectedModelName(vehicleModels, selectedModel),
              yearRange,
              SelectedBodyName(vehicleBodies, selectedBody))
    }
  }

  /**
   * `selectedMakeName`: null when no make is selected; otherwise the name
   * of the first make in the list whose id is the selected one, absent
   * when there is none.
   */
  function SelectedMakeName(makes: seq<VehicleMake>, selected: Option<string>): (name: Option<string>)
    ensures name.Some? <==>
              (Truthy(selected) && exists i :: 0 <= i < |makes| && makes[i].id == selected.value)
    ensures name.Some? ==>
              exists i :: 0 <= i < |makes| && makes[i].id == selected.value && makes[i].name == name.value &&
                forall j :: 0 <= j < i ==> makes[j].id != selected.value
  {
    if Truthy(selected) then
      var id := selected.value;
      match Find(makes, (m: VehicleMake) => m.id == id)
      case Some(m) => Some(m.name)
      case None => None
    else None
  }

  /** `selectedModelName`: the same lookup in the loaded models. */
  function SelectedModelName(models: seq<VehicleModel>, selected: Option<string>): (name: Option<string>)
    ensures name.Some? <==>
              (Truthy(selected) && exists i :: 0 <= i < |models| && models[i].id == selected.value)
    ensures name.Some? ==>
              exists i :: 0 <= i < |models| && models[i].id == selected.value && models[i].name == name.value &&
                forall j :: 0 <= j < i ==> models[j].id != selected.value
  {
    if Truthy(selected) then
      var id := selected.value;
      match Find(models, (m: VehicleModel) => m.id == id)
      case Some(m) => Some(m.name)
      case None => None
    else None
  }

  /** `selectedSeriesYears`: the first loaded series whose id is the selected one. */
  function SelectedSeriesEntry(series: seq<VehicleSeries>, selected: Option<string>): (entry: Option<VehicleSeries>)
    ensures entry.Some? <==>
              (Truthy(selected) && exists i :: 0 <= i < |series| && series[i].id == selected.value)
    ensures entry.Some? ==>
              exists i :: 0 <= i < |series| && series[i] == entry.value && series[i].id == selected.value &&
                forall j :: 0 <= j < i ==> series[j].id != selected.value
  {
    if Truthy(selected) then
      var id := selected.value;
      Find(series, (s: VehicleSeries) => s.id == id)
    else None
  }

  /** `selectedBodyName`: the same lookup in the loaded bodies. */
  function SelectedBodyName(bodies: seq<VehicleBody>, selected: Option<string>): (name: Option<string>)
    ensures name.Some? <==>
              (Truthy(selected) && exists i :: 0 <= i < |bodies| && bodies[i].id == selected.value)
    ensures name.Some? ==>
              exists i :: 0 <= i < |bodies| && bodies[i].id == selected.value && bodies[i].name == name.value &&
                forall j :: 0 <= j < i ==> bodies[j].id != selected.value
  {
    if Truthy(selected) then
      var id := selected.value;
      match Find(bodies, (b: VehicleBody) => b.id == id)
      case Some(b) => Some(b.name)
      case None => None
    else None
  }

  /**
   * The first half of a walk through the selector: mount it, choose the
   * first make, let its models load and choose the first model. The make
   * and the model start one fetch each for models, series and bodies, and
   * no lookup yet.
   */
  method ChooseMakeAndModel(makes: seq<VehicleMake>, models: seq<VehicleModel>)
    returns (selector: VehicleSelector, calls: seq<Call>)
    requires |makes| > 0 && |models| > 0
    requires makes[0].id != "" && models[0].id != ""
    ensures fresh(selector)
    ensures selector.Chained()
    ensures selector.selectedMake == Some(makes[0].id) && selector.selectedModel == Some(models[0].id)
    ensures selector.selectedSeries == None && selector.selectedBody == None
    ensures selector.isLoadingSeries && selector.isLoadingBodies
    ensures calls == [ListModels(makes[0].id), ListSeries(models[0].id), ListBodies(models[0].id)]
  {
    selector := new VehicleSelector(makes, |makes|);
    calls := selector.SelectMake(makes[0].id);
    selector.ModelsLoaded(Listing(models, |models|, None));
    var started := selector.SelectModel(models[0].id);
    calls := calls + started;
  }

  /**
   * The walk continued with a model that has no bodies: its first series
   * is chosen, which starts a lookup without a body; once the lookup
   * resolves to a vehicle the details button leads to that vehicle.
   */
  method SelectWithoutBody(makes: seq<VehicleMake>, models: seq<VehicleModel>, series: seq<VehicleSeries>, vehicle: Vehicle)
    returns (calls: seq<Call>, route: Option<string>)
    requires |makes| > 0 && |models| > 0 && |series| > 0
    requires makes[0].id != "" && models[0].id != "" && series[0].id != ""
    ensures calls == [ListModels(makes[0].id), ListSeries(models[0].id), ListBodies(models[0].id),
                      LookUpVehicle(makes[0].id, models[0].id, series[0].id, None)]
    ensures route == Some("/vehicle/" + vehicle.id)
  {
    var selector;
    selector, calls := ChooseMakeAndModel(makes, models);
    selector.SeriesLoaded(Listing(series, |series|, None));
    selector.BodiesLoaded(Listing([], 0, None));
    var started := selector.SelectSeries(series[0].id);
    calls := calls + started;
    selector.VehicleResolved(Some(vehicle));
    assert selector.DetailsButtonState() == ViewVehicleDetails;
    route := selector.ViewDetailsTarget();
  }
}
