/**
 * The legacy fuelgrid module: argument validation and the request body of
 * `create_fuelgrid`, the fuelgrid update body, the collection URL filters,
 * and the fuelgrid handle's refresh, update and failure-aware wait.
 */
module Fuelgrids {
  import opened Values
  import opened Polling
  import opened Resources
  import opened Legacy

  /** The arguments of `create_fuelgrid`. */
  datatype FuelgridArgs = FuelgridArgs(
    datasetId: string,
    treelistId: string,
    name: string,
    description: string,
    distributionMethod: string,
    horizontalResolution: real,
    verticalResolution: real,
    borderPad: real,
    surfaceFuelSource: string,
    surfaceInterpolationMethod: string,
    writeSparseArray: bool)

  const SupportedSurfaceFuelSource := "LF_SB40"
  const InterpolationMethods: seq<string> := ["nearest", "zipper", "linear", "cubic"]
  const DistributionMethods: seq<string> := ["uniform", "random", "realistic"]

  const SourceMessage := "surface_fuel_source must be 'LF_SB40'"
  const InterpolationMessage := "surface_interpolation_method must be 'nearest', 'zipper', 'linear', or 'cubic'"
  const DistributionMessage := "distribution_method must be 'uniform', 'random', or 'realistic'"

  /** The arguments with every optional parameter at its default. */
  function WithDefaults(datasetId: string, treelistId: string, name: string): (a: FuelgridArgs)
    ensures a.datasetId == datasetId && a.treelistId == treelistId && a.name == name
    ensures a.description == "" && a.distributionMethod == "uniform"
    ensures a.horizontalResolution == 1.0 && a.verticalResolution == 1.0 && a.borderPad == 0.0
    ensures a.surfaceFuelSource == "LF_SB40" && a.surfaceInterpolationMethod == "nearest"
    ensures !a.writeSparseArray
  {
    FuelgridArgs(datasetId, treelistId, name, "", "uniform", 1.0, 1.0, 0.0, "LF_SB40", "nearest", false)
  }

  /**
   * The checks `create_fuelgrid` makes before sending anything, in order:
   * the surface fuel source, the interpolation method, the distribution
   * method. The resolutions and the border pad are not checked.
   */
  function Validate(a: FuelgridArgs): (r: Result<FuelgridArgs>)
    ensures r.Ok? <==> (a.surfaceFuelSource == SupportedSurfaceFuelSource &&
                        a.surfaceInterpolationMethod in InterpolationMethods &&
                        a.distributionMethod in DistributionMethods)
    ensures r.Ok? ==> r.value == a
    ensures a.surfaceFuelSource != SupportedSurfaceFuelSource ==> r == Err(ValueError(SourceMessage))
    ensures a.surfaceFuelSource == SupportedSurfaceFuelSource && a.surfaceInterpolationMethod !in InterpolationMethods ==>
              r == Err(ValueError(InterpolationMessage))
    ensures (a.surfaceFuelSource == SupportedSurfaceFuelSource && a.surfaceInterpolationMethod in InterpolationMethods &&
             a.distributionMethod !in DistributionMethods) ==> r == Err(ValueError(DistributionMessage))
  {
    if a.surfaceFuelSource != SupportedSurfaceFuelSource then Err(ValueError(SourceMessage))
    else if a.surfaceInterpolationMethod !in InterpolationMethods then Err(ValueError(InterpolationMessage))
    else if a.distributionMethod !in DistributionMethods then Err(ValueError(DistributionMessage))
    else Ok(a)
  }

  /** The defaults pass validation. */
  lemma DefaultsAreValid(datasetId: string, treelistId: string, name: string)
    ensures Validate(WithDefaults(datasetId, treelistId, name)) == Ok(WithDefaults(datasetId, treelistId, name))
  {
    assert "nearest" == InterpolationMethods[0];
    assert "uniform" == DistributionMethods[0];
  }

  /** The top-level keys of the create body. */
  const PayloadKeys: set<string> := {"dataset_id", "treelist_id", "name", "description", "surface_fuel_source",
    "surface_interpolation_method", "distribution_method", "horizontal_resolution", "vertical_resolution",
    "border_pad", "outputs"}

  /** The JSON body of `create_fuelgrid`; the sparse-array flag is nested under "outputs". */
  function Payload(a: FuelgridArgs): (j: Json)
    ensures j.Obj? && j.fields.Keys == PayloadKeys
  {
    Obj(map[
      "dataset_id" := Str(a.datasetId),
      "treelist_id" := Str(a.treelistId),
      "name" := Str(a.name),
      "description" := Str(a.description),
      "surface_fuel_source" := Str(a.surfaceFuelSource),
      "surface_interpolation_method" := Str(a.surfaceInterpolationMethod),
      "distribution_method" := Str(a.distributionMethod),
      "horizontal_resolution" := Num(a.horizontalResolution),
      "vertical_resolution" := Num(a.verticalResolution),
      "border_pad" := Num(a.borderPad),
      "outputs" := Obj(map["sparse_array" := Bool(a.writeSparseArray)])])
  }

  /** The server's reading of a create body. */
  function DecodePayload(j: Json): Option<FuelgridArgs>
  {
    if !j.Obj? then None
    else
      var f := j.fields;
      var ds := GetStr(f, "dataset_id");
      var tl := GetStr(f, "treelist_id");
      var nm := GetStr(f, "name");
      var de := GetStr(f, "description");
      var src := GetStr(f, "surface_fuel_source");
      var interp := GetStr(f, "surface_interpolation_method");
      var dist := GetStr(f, "distribution_method");
      var hres := GetNum(f, "horizontal_resolution");
      var vres := GetNum(f, "vertical_resolution");
      var pad := GetNum(f, "border_pad");
      if ds.None? || tl.None? || nm.None? || de.None? || src.None? || interp.None? || dist.None?
         || hres.None? || vres.None? || pad.None? then None
      else if !("outputs" in f && f["outputs"].Obj? && "sparse_array" in f["outputs"].fields
                && f["outputs"].fields["sparse_array"].Bool?) then None
      else
        Some(FuelgridArgs(ds.value, tl.value, nm.value, de.value, dist.value, hres.value, vres.value,
                          pad.value, src.value, interp.value, f["outputs"].fields["sparse_array"].b))
  }

  /** Every argument reaches the server: decoding the body gives the arguments back. */
  lemma PayloadRoundTrip(a: FuelgridArgs)
    ensures DecodePayload(Payload(a)) == Some(a)
  {
    var f := Payload(a).fields;
    assert f["dataset_id"] == Str(a.datasetId) && f["treelist_id"] == Str(a.treelistId);
    assert f["name"] == Str(a.name) && f["description"] == Str(a.description);
    assert f["surface_fuel_source"] == Str(a.surfaceFuelSource);
    assert f["surface_interpolation_method"] == Str(a.surfaceInterpolationMethod);
    assert f["distribution_method"] == Str(a.distributionMethod);
    assert f["horizontal_resolution"] == Num(a.horizontalResolution);
    assert f["vertical_resolution"] == Num(a.verticalResolution);
    assert f["border_pad"] == Num(a.borderPad);
    assert f["outputs"] == Obj(map["sparse_array" := Bool(a.writeSparseArray)]);
  }

  /**
   * `create_fuelgrid`: nothing is sent when validation fails; otherwise the
   * body is POSTed to `{API_URL}/fuelgrids` and a status other than 201
   * raises.
   */
  function CreateFuelgrid(apiUrl: string, a: FuelgridArgs, response: HttpResponse): (e: Exchange<Snapshot>)
    ensures Validate(a).Err? ==> e.request.None? && e.result == Err(Validate(a).error)
    ensures Validate(a).Ok? ==> e.request == Some(Request(POST, apiUrl + "/fuelgrids", Some(Payload(a))))
    ensures Validate(a).Ok? ==> (e.result.Ok? <==> response.status == Created201)
    ensures e.result.Ok? ==> e.result.value == response.body && DecodePayload(e.request.value.body.value) == Some(a)
  {
    match Validate(a)
    case Err(err) => Exchange(None, Err(err))
    case Ok(_) =>
      PayloadRoundTrip(a);
      Exchange(Some(Request(POST, apiUrl + "/fuelgrids", Some(Payload(a)))), FetchResult(Checked(Created201, response)))
  }

  /** The body of `update_fuelgrid`: each argument that is not `None` (an empty string included). */
  function UpdatePayload(name: Option<string>, description: Option<string>): (j: Json)
    ensures j.Obj?
    ensures "name" in j.fields <==> name.Some?
    ensures "description" in j.fields <==> description.Some?
    ensures j.fields.Keys <= {"name", "description"}
  {
    var withName: map<string, Json> := if name.Some? then map["name" := Str(name.value)] else map[];
    Obj(if description.Some? then withName["description" := Str(description.value)] else withName)
  }

  /** Decoding an update body gives back exactly the arguments that were not `None`. */
  lemma UpdatePayloadRoundTrip(name: Option<string>, description: Option<string>)
    ensures GetStr(UpdatePayload(name, description).fields, "name") == name
    ensures GetStr(UpdatePayload(name, description).fields, "description") == description
  {
  }

  /**
   * `update_fuelgrid`: the body is PUT to `{API_URL}/fuelgrids/{id}`, even
   * when it is empty; a status other than 200 raises.
   */
  function UpdateFuelgrid(apiUrl: string, fuelgridId: string, name: Option<string>, description: Option<string>,
                          response: HttpResponse): (e: Exchange<Snapshot>)
    ensures e.request == Some(Request(PUT, apiUrl + "/fuelgrids/" + fuelgridId, Some(UpdatePayload(name, description))))
    ensures e.result.Ok? <==> response.status == Ok200
    ensures e.result.Ok? ==> e.result.value == response.body
  {
    Exchange(Some(Request(PUT, apiUrl + "/fuelgrids/" + fuelgridId, Some(UpdatePayload(name, description)))),
             FetchResult(Checked(Ok200, response)))
  }

  /**
   * The filter of `list_fuelgrids` and `delete_all_fuelgrids`: a dataset id
   * that is not `None` wins over a treelist id; with neither, no filter.
   */
  function FuelgridFilter(datasetId: Option<string>, treelistId: Option<string>): (f: Filter)
    ensures f.All? <==> datasetId.None? && treelistId.None?
    ensures f.ByDataset? <==> datasetId.Some?
    ensures f.ByDataset? ==> f.datasetId == datasetId.value
    ensures f.ByTreelist? ==> f.treelistId == treelistId.value
  {
    if datasetId.Some? then ByDataset(datasetId.value)
    else if treelistId.Some? then ByTreelist(treelistId.value)
    else All
  }

  /** The collection URL of `list_fuelgrids` / `delete_all_fuelgrids`; the chosen filter can be read back from it. */
  function FuelgridsUrl(apiUrl: string, datasetId: Option<string>, treelistId: Option<string>): (url: string)
    ensures ParseCollectionUrl(apiUrl + "/fuelgrids", url) == Some(FuelgridFilter(datasetId, treelistId))
  {
    CollectionUrlRoundTrip(apiUrl + "/fuelgrids", FuelgridFilter(datasetId, treelistId));
    CollectionUrl(apiUrl + "/fuelgrids", FuelgridFilter(datasetId, treelistId))
  }

  /**
   * Filtering tests `is not None`, so an empty dataset id still filters
   * (on the empty id) and still hides the treelist id.
   */
  lemma EmptyDatasetIdStillFilters(apiUrl: string, treelistId: Option<string>)
    ensures FuelgridsUrl(apiUrl, Some(""), treelistId) == apiUrl + "/fuelgrids" + DatasetQuery
  {
    assert DatasetQuery + "" == DatasetQuery;
  }

  /** `Fuelgrid.refresh(inplace)` and `Fuelgrid.update(..., inplace)`: the response replaces the handle's state. */
  function Refresh(self: Handle, response: HttpResponse, inplace: bool): (c: Call<Option<Handle>>)
    ensures response.status != Ok200 ==> c.self == self && c.result == Err(ApiFailure(HttpStatus(response.status)))
    ensures response.status == Ok200 && inplace ==> c.self == Handle(self.id, response.body) && c.result == Ok(None)
    ensures response.status == Ok200 && !inplace ==> c.self == self && c.result == Ok(Some(Handle(self.id, response.body)))
  {
    LegacyRefresh(self, Checked(Ok200, response), inplace)
  }

  const TimeoutMessage := "Timed out waiting for fuelgrid to finish."

  /** The wait stops on "Finished" and raises on "Failed". */
  const WaitPolicy := Policy("Finished", Some("Failed"))

  /** The message of the failure raised by the wait, naming the fuelgrid as last fetched. */
  function FailureText(s: Snapshot): (m: string)
    ensures m == "Fuelgrid " + s.name + " has status 'Failed'."
  {
    "Fuelgrid " + s.name + " has status 'Failed'."
  }

  /** The fetches of a wait: each response checked against status 200. */
  function Fetches(responses: nat -> HttpResponse): (server: Server)
    ensures forall j: nat :: server(j) == Checked(Ok200, responses(j))
  {
    (j: nat) => Checked(Ok200, responses(j))
  }

  /**
   * `Fuelgrid.wait_until_finished`: "Failed" raises `RuntimeError` (before
   * the deadline check), a pending status at the deadline raises
   * `TimeoutError`, a non-200 response raises `HTTPError`; on "Finished" the
   * handle's state is replaced when `inplace` (the default is not to) and
   * `None` is returned, otherwise the finished fuelgrid is.
   */
  function WaitUntilFinished(self: Handle, responses: nat -> HttpResponse, step: nat, timeout: int,
                             inplace: bool): (c: Call<Option<Handle>>)
    requires step > 0
    ensures StopsAt(WaitPolicy, Fetches(responses), step, timeout, c.fetches)
    ensures c.result.Ok? <==> responses(c.fetches - 1).status == Ok200 && responses(c.fetches - 1).body.status == "Finished"
    ensures c.result.Ok? && inplace ==> c.result.value.None? && c.self.state == responses(c.fetches - 1).body
    ensures c.result.Ok? && !inplace ==> c.result.value == Some(Handle(self.id, responses(c.fetches - 1).body))
    ensures c.result.Err? || !inplace ==> c.self == self
    ensures c.result.Err? && c.result.error.RuntimeError? <==>
              responses(c.fetches - 1).status == Ok200 && responses(c.fetches - 1).body.status == "Failed"
    ensures c.result.Err? && c.result.error.RuntimeError? ==> c.result.error.message == FailureText(responses(c.fetches - 1).body)
    ensures c.result.Err? && c.result.error.ApiFailure? <==> responses(c.fetches - 1).status != Ok200
    ensures c.result == Err(TimeoutError(TimeoutMessage)) <==>
              responses(c.fetches - 1).status == Ok200 && responses(c.fetches - 1).body.status !in {"Finished", "Failed"}
    ensures c.result.Err? ==> c.result.error.RuntimeError? || c.result.error == TimeoutError(TimeoutMessage) || c.result.error.ApiFailure?
  {
    WaitReplacing(self, Fetches(responses), WaitPolicy, step, timeout, inplace, TimeoutMessage, FailureText)
  }

  /** A fuelgrid already "Failed" on the first fetch raises at once, whatever the time limit. */
  lemma FailedAtOnce(self: Handle, responses: nat -> HttpResponse, step: nat, timeout: int, inplace: bool)
    requires step > 0
    requires responses(0).status == Ok200 && responses(0).body.status == "Failed"
    ensures WaitUntilFinished(self, responses, step, timeout, inplace).fetches == 1
    ensures WaitUntilFinished(self, responses, step, timeout, inplace).result
         == Err(RuntimeError(FailureText(responses(0).body)))
  {
    StopsAtFirstNonPending(WaitPolicy, Fetches(responses), step, timeout, 0);
  }
}
