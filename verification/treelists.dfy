/**
 * The legacy treelist module: creation, the units check of `get_treelist`,
 * the update body, the collection and item URLs with their dataset filter,
 * and the treelist handle's refresh, update, wait and fuelgrid shortcuts.
 */
module Treelists {
  import opened Values
  import opened Polling
  import opened Resources
  import opened Legacy
  import Fuelgrids

  const DefaultMethod := "random"

  /** The JSON body of `create_treelist`. */
  function CreatePayload(datasetId: string, name: string, description: string, treeMethod: string): (j: Json)
    ensures j.Obj? && j.fields.Keys == {"dataset_id", "name", "description", "method"}
  {
    Obj(map["dataset_id" := Str(datasetId), "name" := Str(name), "description" := Str(description),
            "method" := Str(treeMethod)])
  }

  /** Every argument of `create_treelist` can be read back from its body. */
  lemma CreatePayloadRoundTrip(datasetId: string, name: string, description: string, treeMethod: string)
    ensures GetStr(CreatePayload(datasetId, name, description, treeMethod).fields, "dataset_id") == Some(datasetId)
    ensures GetStr(CreatePayload(datasetId, name, description, treeMethod).fields, "name") == Some(name)
    ensures GetStr(CreatePayload(datasetId, name, description, treeMethod).fields, "description") == Some(description)
    ensures GetStr(CreatePayload(datasetId, name, description, treeMethod).fields, "method") == Some(treeMethod)
  {
  }

  /** `create_treelist`: POST to `{API_URL}/treelists`; a status other than 201 raises. */
  function CreateTreelist(apiUrl: string, datasetId: string, name: string, description: string, treeMethod: string,
                          response: HttpResponse): (e: Exchange<Snapshot>)
    ensures e.request == Some(Request(POST, apiUrl + "/treelists", Some(CreatePayload(datasetId, name, description, treeMethod))))
    ensures e.result.Ok? <==> response.status == Created201
    ensures e.result.Ok? ==> e.result.value == response.body
  {
    Exchange(Some(Request(POST, apiUrl + "/treelists", Some(CreatePayload(datasetId, name, description, treeMethod)))),
             FetchResult(Checked(Created201, response)))
  }

  const UnitsMessage := "units must be 'metric' or 'imperial'"
  const UnitsQuery := "?units="

  /**
   * `get_treelist`: units other than "metric" or "imperial" raise
   * `ValueError` before anything is sent; otherwise the units go into the
   * query of `{API_URL}/treelists/{id}`.
   */
  function GetTreelist(apiUrl: string, treelistId: string, units: string, response: HttpResponse): (e: Exchange<Snapshot>)
    ensures e.request.Some? <==> units == "metric" || units == "imperial"
    ensures e.request.None? ==> e.result == Err(ValueError(UnitsMessage))
    ensures e.request.Some? ==> e.request.value == Request(GET, apiUrl + "/treelists/" + treelistId + UnitsQuery + units, None)
    ensures e.request.Some? ==> (e.result.Ok? <==> response.status == Ok200)
    ensures e.result.Ok? ==> e.result.value == response.body
  {
    if units != "metric" && units != "imperial" then Exchange(None, Err(ValueError(UnitsMessage)))
    else Exchange(Some(Request(GET, apiUrl + "/treelists/" + treelistId + UnitsQuery + units, None)),
                  FetchResult(Checked(Ok200, response)))
  }

  /** The server's reading of the units from an item URL. */
  function ParseUnits(item: string, url: string): Option<string>
  {
    if item + UnitsQuery <= url then Some(url[|item + UnitsQuery|..]) else None
  }

  /** The units `get_treelist` accepts reach the server unchanged in the query of the item URL. */
  lemma GetTreelistUnitsRoundTrip(apiUrl: string, treelistId: string, units: string, response: HttpResponse)
    requires units == "metric" || units == "imperial"
    ensures GetTreelist(apiUrl, treelistId, units, response).request.Some?
    ensures ParseUnits(apiUrl + "/treelists/" + treelistId, GetTreelist(apiUrl, treelistId, units, response).request.value.url)
         == Some(units)
  {
    var item := apiUrl + "/treelists/" + treelistId;
    assert item + UnitsQuery + units == (item + UnitsQuery) + units;
    assert ((item + UnitsQuery) + units)[|item + UnitsQuery|..] == units;
  }

  const UpdateMessage := "name or description must be provided"

  /** The body of `update_treelist`: each argument that is truthy (present and non-empty). */
  function UpdatePayload(name: Option<string>, description: Option<string>): (j: Json)
    ensures j.Obj?
    ensures "name" in j.fields <==> TruthyStr(name)
    ensures "description" in j.fields <==> TruthyStr(description)
    ensures j.fields.Keys <= {"name", "description"}
  {
    var withName: map<string, Json> := if TruthyStr(name) then map["name" := Str(name.value)] else map[];
    Obj(if TruthyStr(description) then withName["description" := Str(description.value)] else withName)
  }

  /** Decoding an update body gives back the truthy arguments and nothing for the others. */
  lemma UpdatePayloadRoundTrip(name: Option<string>, description: Option<string>)
    ensures GetStr(UpdatePayload(name, description).fields, "name") == (if TruthyStr(name) then name else None)
    ensures GetStr(UpdatePayload(name, description).fields, "description")
         == (if TruthyStr(description) then description else None)
  {
  }

  /**
   * `update_treelist`: `ValueError` exactly when both arguments are `None`;
   * otherwise the truthy ones are PATCHed to `{API_URL}/treelists/{id}`.
   */
  function UpdateTreelist(apiUrl: string, treelistId: string, name: Option<string>, description: Option<string>,
                          response: HttpResponse): (e: Exchange<Snapshot>)
    ensures e.request.None? <==> name.None? && description.None?
    ensures e.request.None? ==> e.result == Err(ValueError(UpdateMessage))
    ensures e.request.Some? ==>
              e.request.value == Request(PATCH, apiUrl + "/treelists/" + treelistId, Some(UpdatePayload(name, description)))
    ensures e.request.Some? ==> (e.result.Ok? <==> response.status == Ok200)
  {
    if name.None? && description.None? then Exchange(None, Err(ValueError(UpdateMessage)))
    else Exchange(Some(Request(PATCH, apiUrl + "/treelists/" + treelistId, Some(UpdatePayload(name, description)))),
                  FetchResult(Checked(Ok200, response)))
  }

  /**
   * The validity check tests `is None` but the body tests truthiness, so an
   * empty name with no description passes the check and sends an empty body.
   */
  lemma EmptyNameSendsEmptyBody(apiUrl: string, treelistId: string, response: HttpResponse)
    ensures UpdateTreelist(apiUrl, treelistId, Some(""), None, response).request
         == Some(Request(PATCH, apiUrl + "/treelists/" + treelistId, Some(Obj(map[]))))
  {
  }

  /** The filter of `list_treelists` and `delete_all_treelists`: by dataset exactly when the id is truthy. */
  function TreelistFilter(datasetId: Option<string>): (f: Filter)
    ensures f.ByDataset? <==> TruthyStr(datasetId)
    ensures f.ByDataset? ==> f.datasetId == datasetId.value
    ensures !f.ByTreelist?
  {
    if TruthyStr(datasetId) then ByDataset(datasetId.value) else All
  }

  /** The collection URL of `list_treelists` / `delete_all_treelists`; the filter can be read back from it. */
  function TreelistsUrl(apiUrl: string, datasetId: Option<string>): (url: string)
    ensures ParseCollectionUrl(apiUrl + "/treelists", url) == Some(TreelistFilter(datasetId))
  {
    CollectionUrlRoundTrip(apiUrl + "/treelists", TreelistFilter(datasetId));
    CollectionUrl(apiUrl + "/treelists", TreelistFilter(datasetId))
  }

  /** Unlike the fuelgrid filters, an empty dataset id here means no filter at all. */
  lemma EmptyDatasetIdDoesNotFilter(apiUrl: string)
    ensures TreelistsUrl(apiUrl, Some("")) == TreelistsUrl(apiUrl, None) == apiUrl + "/treelists"
  {
  }

  /** The URL of `delete_treelist`: the item URL, with the dataset query appended when the id is truthy. */
  function DeleteTreelistUrl(apiUrl: string, treelistId: string, datasetId: Option<string>): (url: string)
    ensures ParseCollectionUrl(apiUrl + "/treelists/" + treelistId, url)
         == Some(if TruthyStr(datasetId) then ByDataset(datasetId.value) else All)
  {
    CollectionUrlRoundTrip(apiUrl + "/treelists/" + treelistId, TreelistFilter(datasetId));
    CollectionUrl(apiUrl + "/treelists/" + treelistId, TreelistFilter(datasetId))
  }

  /**
   * `Treelist.refresh(inplace)`: `get_treelist(self.id)` with the default
   * metric units, whose treelist replaces the handle's state.
   */
  function Refresh(apiUrl: string, self: Handle, response: HttpResponse, inplace: bool): (h: HandleCall)
    ensures h.request == GetTreelist(apiUrl, self.id, "metric", response).request
    ensures h.result.Ok? <==> GetTreelist(apiUrl, self.id, "metric", response).result.Ok?
    ensures response.status != Ok200 ==> h.self == self && h.result == Err(ApiFailure(HttpStatus(response.status)))
    ensures h.result.Ok? && inplace ==>
              h.self == Handle(self.id, GetTreelist(apiUrl, self.id, "metric", response).result.value) && h.result == Ok(None)
    ensures h.result.Ok? && !inplace ==>
              h.self == self && h.result == Ok(Some(Handle(self.id, GetTreelist(apiUrl, self.id, "metric", response).result.value)))
  {
    var e := GetTreelist(apiUrl, self.id, "metric", response);
    var c := LegacyRefresh(self, Checked(Ok200, response), inplace);
    HandleCall(e.request, c.self, c.result)
  }

  /**
   * `Treelist.update(name, description, inplace)`: `update_treelist(self.id,
   * ...)`, so both arguments `None` raise `ValueError` before any request and
   * leave the handle alone; otherwise the PATCH is sent and its answer is
   * merged into the handle's state (inplace) or returned.
   */
  function UpdateHandle(apiUrl: string, self: Handle, name: Option<string>, description: Option<string>,
                        response: HttpResponse, inplace: bool): (h: HandleCall)
    ensures h.request == UpdateTreelist(apiUrl, self.id, name, description, response).request
    ensures h.request.None? <==> name.None? && description.None?
    ensures h.request.None? ==> h.self == self && h.result == Err(ValueError(UpdateMessage))
    ensures h.request.Some? && response.status != Ok200 ==>
              h.self == self && h.result == Err(ApiFailure(HttpStatus(response.status)))
    ensures h.request.Some? && response.status == Ok200 && inplace ==>
              h.self == Handle(self.id, Merged(self.state, response.body)) && h.result == Ok(None)
    ensures h.request.Some? && response.status == Ok200 && !inplace ==>
              h.self == self && h.result == Ok(Some(Handle(self.id, response.body)))
  {
    var e := UpdateTreelist(apiUrl, self.id, name, description, response);
    if e.request.None? then HandleCall(None, self, Err(ValueError(UpdateMessage)))
    else
      var c := LegacyMerge(self, Checked(Ok200, response), inplace);
      HandleCall(e.request, c.self, c.result)
  }

  /**
   * Whichever mode is used, an accepted update leaves the caller seeing the
   * same data: in place, the handle holds its old attributes overridden by
   * exactly the treelist the other mode returns.
   */
  lemma UpdateHandleModesAgree(apiUrl: string, self: Handle, name: Option<string>, description: Option<string>,
                               response: HttpResponse)
    requires name.Some? || description.Some?
    requires response.status == Ok200
    ensures UpdateHandle(apiUrl, self, name, description, response, true).self.state
         == Merged(self.state, UpdateHandle(apiUrl, self, name, description, response, false).result.value.value.state)
  {
  }

  const TimeoutMessage := "Timed out waiting for treelist to finish."

  /** The treelist wait stops on "Finished" and has no failure check. */
  const WaitPolicy := Policy("Finished", None)

  /**
   * `Treelist.wait_until_finished`: on "Finished" the handle's state is
   * replaced when `inplace` (the default) and `None` is returned; a
   * treelist that fails is waited on until the deadline.
   */
  function WaitUntilFinished(self: Handle, responses: nat -> HttpResponse, step: nat, timeout: int,
                             inplace: bool): (c: Call<Option<Handle>>)
    requires step > 0
    ensures StopsAt(WaitPolicy, Fuelgrids.Fetches(responses), step, timeout, c.fetches)
    ensures c.result.Ok? <==> responses(c.fetches - 1).status == Ok200 && responses(c.fetches - 1).body.status == "Finished"
    ensures c.result.Ok? && inplace ==> c.result.value.None? && c.self.state == responses(c.fetches - 1).body
    ensures c.result.Ok? && !inplace ==> c.result.value == Some(Handle(self.id, responses(c.fetches - 1).body))
    ensures c.result.Err? || !inplace ==> c.self == self
    ensures c.result == Err(TimeoutError(TimeoutMessage)) <==>
              responses(c.fetches - 1).status == Ok200 && responses(c.fetches - 1).body.status != "Finished"
    ensures c.result.Err? && c.result.error.ApiFailure? <==> responses(c.fetches - 1).status != Ok200
    ensures c.result.Err? && c.result.error.ApiFailure? ==> c.result.error.error == HttpStatus(responses(c.fetches - 1).status)
    ensures c.result.Err? ==> c.result.error == TimeoutError(TimeoutMessage) || c.result.error.ApiFailure?
  {
    WaitReplacing(self, Fuelgrids.Fetches(responses), WaitPolicy, step, timeout, inplace, TimeoutMessage, (s: Snapshot) => "")
  }

  /**
   * A treelist that answers 200 with a status other than "Finished" on every
   * poll is polled until the deadline and then times out.
   */
  lemma UnfinishedTreelistTimesOut(self: Handle, responses: nat -> HttpResponse, step: nat, timeout: int, inplace: bool)
    requires step > 0
    requires forall j: nat :: responses(j).status == Ok200 && responses(j).body.status != "Finished"
    ensures WaitUntilFinished(self, responses, step, timeout, inplace).result == Err(TimeoutError(TimeoutMessage))
    ensures WaitUntilFinished(self, responses, step, timeout, inplace).self == self
  {
    var c := WaitUntilFinished(self, responses, step, timeout, inplace);
    assert responses(c.fetches - 1).status == Ok200;
  }

  /** Even a "Failed" treelist is polled until the deadline and then times out. */
  lemma FailedTreelistTimesOut(self: Handle, responses: nat -> HttpResponse, step: nat, timeout: int, inplace: bool)
    requires step > 0
    requires forall j: nat :: responses(j).status == Ok200 && responses(j).body.status == "Failed"
    ensures WaitUntilFinished(self, responses, step, timeout, inplace).result == Err(TimeoutError(TimeoutMessage))
    ensures WaitUntilFinished(self, responses, step, timeout, inplace).fetches == LeastK(timeout, step) + 1
  {
    assert forall j: nat :: Pending(WaitPolicy, Fuelgrids.Fetches(responses)(j));
    NeverTerminalTimesOut(WaitPolicy, Fuelgrids.Fetches(responses), step, timeout);
  }

  /**
   * `Treelist.create_fuelgrid`: the general call with this treelist's id and
   * dataset id, and the sparse array left off.
   */
  function CreateFuelgridArgs(treelistId: string, datasetId: string, name: string, description: string,
                              distributionMethod: string, horizontalResolution: real, verticalResolution: real,
                              borderPad: real, surfaceFuelSource: string, surfaceInterpolationMethod: string): (a: Fuelgrids.FuelgridArgs)
    ensures a.treelistId == treelistId && a.datasetId == datasetId && !a.writeSparseArray
    ensures a.name == name && a.description == description && a.distributionMethod == distributionMethod
    ensures a.horizontalResolution == horizontalResolution && a.verticalResolution == verticalResolution
    ensures a.borderPad == borderPad && a.surfaceFuelSource == surfaceFuelSource
    ensures a.surfaceInterpolationMethod == surfaceInterpolationMethod
  {
    Fuelgrids.FuelgridArgs(datasetId, treelistId, name, description, distributionMethod, horizontalResolution,
                           verticalResolution, borderPad, surfaceFuelSource, surfaceInterpolationMethod, false)
  }

  /**
   * `Treelist.list_fuelgrids` and `Treelist.delete_fuelgrids` filter the
   * fuelgrids by this treelist's id.
   */
  lemma TreelistFuelgridsFilter(apiUrl: string, treelistId: string)
    ensures ParseCollectionUrl(apiUrl + "/fuelgrids", Fuelgrids.FuelgridsUrl(apiUrl, None, Some(treelistId)))
         == Some(ByTreelist(treelistId))
  {
  }
}
