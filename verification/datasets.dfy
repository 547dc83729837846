/**
 * The legacy dataset module: the tag normalisation of a dataset, the
 * create and update bodies, the handle's merging refresh and update, and
 * the treelist and fuelgrid shortcuts of a dataset.
 */
module Datasets {
  import opened Values
  import opened Legacy
  import opened Resources
  import opened Polling
  import Treelists
  import Fuelgrids

  /** `tags if tags else []`: falsy tags (null, an empty list) become the empty list; truthy ones are kept. */
  function NormalTags(tags: Json): (r: Json)
    ensures Truthy(tags) ==> r == tags
    ensures !Truthy(tags) ==> r == Arr([])
    ensures Truthy(r) <==> Truthy(tags)
  {
    if Truthy(tags) then tags else Arr([])
  }

  /** Normalising is idempotent. */
  lemma NormalTagsIdempotent(tags: Json)
    ensures NormalTags(NormalTags(tags)) == NormalTags(tags)
  {
  }

  /**
   * `Dataset(**response.json())`: the handle's state is the response body
   * with its tags normalised; every other member is kept as sent.
   */
  function AsDataset(body: Snapshot): (d: Snapshot)
    ensures d.status == body.status && d.name == body.name && d.error == body.error
    ensures d.fields.Keys == body.fields.Keys
    ensures forall k :: k in body.fields && k != "tags" ==> d.fields[k] == body.fields[k]
    ensures "tags" in body.fields ==> d.fields["tags"] == NormalTags(body.fields["tags"])
  {
    if "tags" in body.fields then body.(fields := body.fields["tags" := NormalTags(body.fields["tags"])]) else body
  }

  /** Building a dataset from a dataset's own state changes nothing. */
  lemma AsDatasetIdempotent(body: Snapshot)
    ensures AsDataset(AsDataset(body)) == AsDataset(body)
  {
    if "tags" in body.fields {
      NormalTagsIdempotent(body.fields["tags"]);
    }
  }

  /** A checked response as the dataset the legacy module builds from it. */
  function DatasetFetch(expected: int, response: HttpResponse): (f: Fetch)
    ensures f.Got? <==> response.status == expected
    ensures f.Got? ==> f.snapshot == AsDataset(response.body)
    ensures f.Raised? ==> f.error == HttpStatus(response.status)
  {
    match Checked(expected, response)
    case Got(s) => Got(AsDataset(s))
    case Raised(e) => Raised(e)
  }

  /**
   * The spatial-data member of the create body: a string is a feature id,
   * anything else is sent as the data itself.
   */
  function SpatialData(spatial: Json): (j: Json)
    ensures j.Obj? && |j.fields| == 1
    ensures spatial.Str? ==> j.fields == map["feature_id" := spatial]
    ensures !spatial.Str? ==> j.fields == map["data" := spatial]
  {
    Obj(map[(if spatial.Str? then "feature_id" else "data") := spatial])
  }

  /** The JSON body of `create_dataset`; missing tags are sent as `null`. */
  function CreatePayload(name: string, description: string, spatial: Json, tags: Option<seq<string>>): (j: Json)
    ensures j.Obj? && j.fields.Keys == {"name", "description", "tags", "spatial_data"}
  {
    Obj(map["name" := Str(name), "description" := Str(description), "tags" := OptStrArr(tags),
            "spatial_data" := SpatialData(spatial)])
  }

  /** The server's reading of the spatial-data member: which kind it is and the value. */
  function DecodeSpatial(j: Json): Option<Json>
  {
    if j.Obj? && "feature_id" in j.fields && j.fields["feature_id"].Str? then Some(j.fields["feature_id"])
    else if j.Obj? && "data" in j.fields && !j.fields["data"].Str? then Some(j.fields["data"])
    else None
  }

  /** The create body carries the name, the description, whether tags were given, and the spatial data. */
  lemma CreatePayloadRoundTrip(name: string, description: string, spatial: Json, tags: Option<seq<string>>)
    ensures GetStr(CreatePayload(name, description, spatial, tags).fields, "name") == Some(name)
    ensures GetStr(CreatePayload(name, description, spatial, tags).fields, "description") == Some(description)
    ensures CreatePayload(name, description, spatial, tags).fields["tags"] == Null <==> tags.None?
    ensures DecodeSpatial(CreatePayload(name, description, spatial, tags).fields["spatial_data"]) == Some(spatial)
  {
    var s := SpatialData(spatial);
    if spatial.Str? {
      assert s.fields["feature_id"] == spatial;
    } else {
      assert "feature_id" !in s.fields;
      assert s.fields["data"] == spatial;
    }
  }

  /** `create_dataset`: POST to `{API_URL}/datasets`; a status other than 201 raises. */
  function CreateDataset(apiUrl: string, name: string, description: string, spatial: Json, tags: Option<seq<string>>,
                         response: HttpResponse): (e: Exchange<Snapshot>)
    ensures e.request == Some(Request(POST, apiUrl + "/datasets", Some(CreatePayload(name, description, spatial, tags))))
    ensures e.result.Ok? <==> response.status == Created201
    ensures e.result.Ok? ==> e.result.value == AsDataset(response.body)
  {
    Exchange(Some(Request(POST, apiUrl + "/datasets", Some(CreatePayload(name, description, spatial, tags)))),
             FetchResult(DatasetFetch(Created201, response)))
  }

  const UpdateMessage := "At least one of the optional parameters must be provided."

  /** The body of `update_dataset`: each argument that is truthy (tags: a non-empty list). */
  function UpdatePayload(name: Option<string>, description: Option<string>, tags: Option<seq<string>>): (j: Json)
    ensures j.Obj? && j.fields.Keys <= {"name", "description", "tags"}
    ensures "name" in j.fields <==> TruthyStr(name)
    ensures "description" in j.fields <==> TruthyStr(description)
    ensures "tags" in j.fields <==> tags.Some? && |tags.value| > 0
    ensures "name" in j.fields ==> j.fields["name"] == Str(name.value)
    ensures "description" in j.fields ==> j.fields["description"] == Str(description.value)
    ensures "tags" in j.fields ==> j.fields["tags"] == StrArr(tags.value)
  {
    var a: map<string, Json> := if TruthyStr(name) then map["name" := Str(name.value)] else map[];
    var b := if TruthyStr(description) then a["description" := Str(description.value)] else a;
    Obj(if tags.Some? && |tags.value| > 0 then b["tags" := StrArr(tags.value)] else b)
  }

  /**
   * `update_dataset`: `ValueError` exactly when all three arguments are
   * `None`; otherwise the truthy ones are PATCHed to `{API_URL}/datasets/{id}`.
   */
  function UpdateDataset(apiUrl: string, datasetId: string, name: Option<string>, description: Option<string>,
                         tags: Option<seq<string>>, response: HttpResponse): (e: Exchange<Snapshot>)
    ensures e.request.None? <==> name.None? && description.None? && tags.None?
    ensures e.request.None? ==> e.result == Err(ValueError(UpdateMessage))
    ensures e.request.Some? ==>
              e.request.value == Request(PATCH, apiUrl + "/datasets/" + datasetId, Some(UpdatePayload(name, description, tags)))
    ensures e.request.Some? ==> (e.result.Ok? <==> response.status == Ok200)
    ensures e.request.Some? && e.result.Ok? ==> e.result.value == AsDataset(response.body)
  {
    if name.None? && description.None? && tags.None? then Exchange(None, Err(ValueError(UpdateMessage)))
    else Exchange(Some(Request(PATCH, apiUrl + "/datasets/" + datasetId, Some(UpdatePayload(name, description, tags)))),
                  FetchResult(DatasetFetch(Ok200, response)))
  }

  /** Empty tags pass the check but are not sent, so the request body can be empty. */
  lemma EmptyTagsSendEmptyBody(apiUrl: string, datasetId: string, response: HttpResponse)
    ensures UpdateDataset(apiUrl, datasetId, None, None, Some([]), response).request
         == Some(Request(PATCH, apiUrl + "/datasets/" + datasetId, Some(Obj(map[]))))
  {
  }

  /** `get_dataset`: GET `{API_URL}/datasets/{id}`; a status other than 200 raises. */
  function GetDataset(apiUrl: string, datasetId: string, response: HttpResponse): (e: Exchange<Snapshot>)
    ensures e.request == Some(Request(GET, apiUrl + "/datasets/" + datasetId, None))
    ensures e.result.Ok? <==> response.status == Ok200
    ensures e.result.Ok? ==> e.result.value == AsDataset(response.body)
  {
    Exchange(Some(Request(GET, apiUrl + "/datasets/" + datasetId, None)), FetchResult(DatasetFetch(Ok200, response)))
  }

  /**
   * `Dataset.refresh(inplace)`: `get_dataset(self.id)`, whose dataset is
   * merged into the handle's state (inplace) or returned as a new handle.
   */
  function Refresh(apiUrl: string, self: Handle, response: HttpResponse, inplace: bool): (h: HandleCall)
    ensures h.request == GetDataset(apiUrl, self.id, response).request
    ensures h.result.Ok? <==> GetDataset(apiUrl, self.id, response).result.Ok?
    ensures response.status != Ok200 ==> h.self == self && h.result == Err(ApiFailure(HttpStatus(response.status)))
    ensures h.result.Ok? && inplace ==>
              h.self == Handle(self.id, Merged(self.state, GetDataset(apiUrl, self.id, response).result.value))
              && h.result == Ok(None)
    ensures h.result.Ok? && !inplace ==>
              h.self == self && h.result == Ok(Some(Handle(self.id, GetDataset(apiUrl, self.id, response).result.value)))
  {
    var e := GetDataset(apiUrl, self.id, response);
    var c := LegacyMerge(self, DatasetFetch(Ok200, response), inplace);
    HandleCall(e.request, c.self, c.result)
  }

  /**
   * `Dataset.update(name, description, tags, inplace)`: `update_dataset(self.id,
   * ...)`, so all three arguments `None` raise `ValueError` before any request
   * and leave the handle alone; otherwise the PATCH is sent and its answer is
   * merged into the handle's state (inplace) or returned.
   */
  function UpdateHandle(apiUrl: string, self: Handle, name: Option<string>, description: Option<string>,
                        tags: Option<seq<string>>, response: HttpResponse, inplace: bool): (h: HandleCall)
    ensures h.request == UpdateDataset(apiUrl, self.id, name, description, tags, response).request
    ensures h.request.None? <==> name.None? && description.None? && tags.None?
    ensures h.request.None? ==> h.self == self && h.result == Err(ValueError(UpdateMessage))
    ensures h.request.Some? && response.status != Ok200 ==>
              h.self == self && h.result == Err(ApiFailure(HttpStatus(response.status)))
    ensures h.request.Some? && response.status == Ok200 && inplace ==>
              h.self == Handle(self.id, Merged(self.state, AsDataset(response.body))) && h.result == Ok(None)
    ensures h.request.Some? && response.status == Ok200 && !inplace ==>
              h.self == self && h.result == Ok(Some(Handle(self.id, AsDataset(response.body))))
  {
    var e := UpdateDataset(apiUrl, self.id, name, description, tags, response);
    if e.request.None? then HandleCall(None, self, Err(ValueError(UpdateMessage)))
    else
      var c := LegacyMerge(self, DatasetFetch(Ok200, response), inplace);
      HandleCall(e.request, c.self, c.result)
  }

  /**
   * Refreshing twice in place with the same answer is the same as refreshing
   * once: the merge keeps the server's attributes and adds nothing new.
   */
  lemma RefreshIdempotent(apiUrl: string, self: Handle, response: HttpResponse)
    ensures Refresh(apiUrl, Refresh(apiUrl, self, response, true).self, response, true).self
         == Refresh(apiUrl, self, response, true).self
  {
    if response.status == Ok200 {
      MergedIdempotent(self.state, AsDataset(response.body));
    }
  }

  /**
   * A refreshed handle never holds null tags: a response whose tags are null
   * or empty leaves the empty list in the handle, in place or returned.
   */
  lemma RefreshNeverStoresNullTags(apiUrl: string, self: Handle, response: HttpResponse, inplace: bool)
    requires response.status == Ok200 && "tags" in response.body.fields
    ensures var h := Refresh(apiUrl, self, response, inplace);
            var state := if inplace then h.self.state else h.result.value.value.state;
            "tags" in state.fields && state.fields["tags"] != Null
            && (!Truthy(response.body.fields["tags"]) ==> state.fields["tags"] == Arr([]))
  {
  }

  /** `Dataset.create_treelist`: the general call with this dataset's id. */
  function CreateTreelist(apiUrl: string, self: Handle, name: string, description: string, treeMethod: string,
                          response: HttpResponse): (e: Exchange<Snapshot>)
    ensures e.request.Some? && e.request.value.body.Some? && e.request.value.body.value.Obj?
    ensures GetStr(e.request.value.body.value.fields, "dataset_id") == Some(self.id)
    ensures e == Treelists.CreateTreelist(apiUrl, self.id, name, description, treeMethod, response)
  {
    Treelists.CreatePayloadRoundTrip(self.id, name, description, treeMethod);
    Treelists.CreateTreelist(apiUrl, self.id, name, description, treeMethod, response)
  }

  /**
   * `Dataset.list_fuelgrids` / `delete_fuelgrids` always filter by the
   * dataset's id; `Dataset.list_treelists` / `delete_treelists` do so only
   * when the id is non-empty, because the treelist filter tests truthiness.
   */
  lemma DatasetFilters(apiUrl: string, datasetId: string)
    ensures ParseCollectionUrl(apiUrl + "/fuelgrids", Fuelgrids.FuelgridsUrl(apiUrl, Some(datasetId), None))
         == Some(ByDataset(datasetId))
    ensures ParseCollectionUrl(apiUrl + "/treelists", Treelists.TreelistsUrl(apiUrl, Some(datasetId)))
         == Some(if datasetId == "" then All else ByDataset(datasetId))
  {
  }
}
