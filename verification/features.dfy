/**
 * Road and water features of a domain: creation from named sources (with
 * the OpenStreetMap shortcut), the feature handles' wait, and the wrapping
 * of a features response into handles.
 */
module Features {
  import opened Values
  import opened Polling
  import opened Resources

  /** The two feature layers a domain can have. */
  datatype Kind = Road | Water

  /** The features of a domain. */
  datatype Features = Features(domainId: string, road: Option<Handle>, water: Option<Handle>)

  /** The features after a create call, the sources sent, and the created handle (or the API error). */
  datatype Created = Created(self: Features, sources: seq<string>, result: Result<Handle>)

  const OsmSource := "OSM"

  /** The wait of either feature handle stops on "completed" only. */
  const WaitPolicy := Policy("completed", None)

  /** The timeout message of each feature handle's wait. */
  function TimeoutMessage(kind: Kind): string
  {
    match kind
    case Road => "Timed out waiting for road features to finish."
    case Water => "Timed out waiting for water features to finish."
  }

  /** The layer of a given kind. */
  function Layer(self: Features, kind: Kind): Option<Handle>
  {
    match kind
    case Road => self.road
    case Water => self.water
  }

  /**
   * `create_road_feature` / `create_water_feature`: a string source becomes
   * a one-element list; with `in_place` that layer, and only that layer,
   * becomes the created handle.
   */
  function CreateFeature(self: Features, kind: Kind, sources: StrOrList, inPlace: bool, response: Fetch): (c: Created)
    ensures c.sources == AsList(sources)
    ensures response.Got? <==> c.result.Ok?
    ensures response.Got? ==> c.result.value == Handle(self.domainId, response.snapshot)
    ensures response.Raised? ==> c.result == Err(ApiFailure(response.error))
    ensures c.self.domainId == self.domainId
    ensures Layer(c.self, kind) == (if inPlace && response.Got? then Some(c.result.value) else Layer(self, kind))
    ensures forall other :: other != kind ==> Layer(c.self, other) == Layer(self, other)
  {
    var sent := AsList(sources);
    match response
    case Raised(e) => Created(self, sent, Err(ApiFailure(e)))
    case Got(s) =>
      var created := Handle(self.domainId, s);
      var after := if !inPlace then self
                   else match kind
                        case Road => self.(road := Some(created))
                        case Water => self.(water := Some(created));
      Created(after, sent, Ok(created))
  }

  /** `create_road_feature_from_osm` / `create_water_feature_from_osm`: the general call with the single source "OSM". */
  function CreateFeatureFromOsm(self: Features, kind: Kind, inPlace: bool, response: Fetch): (c: Created)
    ensures c.sources == [OsmSource]
    ensures c == CreateFeature(self, kind, Many([OsmSource]), inPlace, response)
  {
    CreateFeature(self, kind, One(OsmSource), inPlace, response)
  }

  /**
   * `RoadFeature.wait_until_completed` / `WaterFeature.wait_until_completed`:
   * only a "completed" snapshot is returned; the only exceptions are the
   * kind's timeout and API errors.
   */
  function WaitUntilCompleted(kind: Kind, self: Handle, server: Server, step: nat, timeout: int, inPlace: bool): (c: Call<Returned>)
    requires step > 0
    ensures StopsAt(WaitPolicy, server, step, timeout, c.fetches)
    ensures c.result.Ok? <==> server(c.fetches - 1).Got? && server(c.fetches - 1).snapshot.status == "completed"
    ensures c.result.Ok? ==> c.result.value == Returned(Handle(self.id, server(c.fetches - 1).snapshot), inPlace)
    ensures c.result == Err(TimeoutError(TimeoutMessage(kind))) <==> Pending(WaitPolicy, server(c.fetches - 1))
    ensures c.result.Err? ==> c.result.error == TimeoutError(TimeoutMessage(kind)) || c.result.error.ApiFailure?
    ensures c.self == (if inPlace then Refreshed(self, LastSeen(server, c.fetches)) else self)
  {
    WaitFetching(self, server, WaitPolicy, step, timeout, inPlace, TimeoutMessage(kind), (s: Snapshot) => "")
  }
  /**
   * The wait returns the first "completed" snapshot reached before the
   * deadline, after exactly as many fetches as it took to see it.
   */
  lemma CompletesOnFirstCompleted(kind: Kind, self: Handle, server: Server, step: nat, timeout: int, inPlace: bool, m: nat)
    requires step > 0
    requires m <= LeastK(timeout, step)
    requires forall j :: 0 <= j < m ==> Pending(WaitPolicy, server(j))
    requires server(m).Got? && server(m).snapshot.status == "completed"
    ensures WaitUntilCompleted(kind, self, server, step, timeout, inPlace).fetches == m + 1
    ensures WaitUntilCompleted(kind, self, server, step, timeout, inPlace).result
         == Ok(Returned(Handle(self.id, server(m).snapshot), inPlace))
  {
    var c := WaitUntilCompleted(kind, self, server, step, timeout, inPlace);
    assert StopsAt(WaitPolicy, server, step, timeout, m + 1);
    StopsAtUnique(WaitPolicy, server, step, timeout, c.fetches, m + 1);
  }


  /**
   * `_convert_api_models_to_sdk_classes` of the features module: "road" and
   * "water" become handles when present and truthy; nothing else is touched.
   */
  function ConvertFeatures(domainId: string, data: map<string, Json>): (r: map<string, Entry>)
    ensures Unwrap(r) == data
    ensures "road" in data && Truthy(data["road"]) ==> r["road"] == Wrapped(domainId, data["road"])
    ensures "water" in data && Truthy(data["water"]) ==> r["water"] == Wrapped(domainId, data["water"])
    ensures forall k :: k in r && r[k].Wrapped? ==> k == "road" || k == "water"
  {
    ConvertLosesNothing(domainId, data, {"road", "water"});
    ConvertEntries(domainId, data, {"road", "water"})
  }
}
