/**
 * The ALS (airborne laser scanning) point cloud of a domain: creation, the
 * failure-aware wait, and the wrapping of a point-clouds response.
 */
module PointCloud {
  import opened Values
  import opened Polling
  import opened Resources

  /** The point clouds of a domain. */
  datatype PointClouds = PointClouds(domainId: string, als: Option<Handle>)

  /** The point clouds after a create call, the sources argument as sent, and the created handle (or the API error). */
  datatype Created = Created(self: PointClouds, sources: StrOrList, result: Result<Handle>)

  const FailureMessage := "ALS point cloud processing failed."
  const TimeoutMessage := "Timed out waiting for ALS point cloud to finish."

  /** The wait stops on "completed" and raises on "failed". */
  const WaitPolicy := Policy("completed", Some("failed"))

  /**
   * `create_als_point_cloud`: unlike the feature calls, the sources argument
   * is put into the request as given, with no string-to-list wrapping; with
   * `in_place` the domain's ALS point cloud becomes the created handle.
   */
  function CreateAlsPointCloud(self: PointClouds, sources: StrOrList, inPlace: bool, response: Fetch): (c: Created)
    ensures c.sources == sources
    ensures response.Got? ==> c.result == Ok(Handle(self.domainId, response.snapshot))
    ensures response.Raised? ==> c.result == Err(ApiFailure(response.error))
    ensures c.self == (if inPlace && response.Got? then self.(als := Some(c.result.value)) else self)
  {
    match response
    case Raised(e) => Created(self, sources, Err(ApiFailure(e)))
    case Got(s) =>
      var created := Handle(self.domainId, s);
      Created(if inPlace then self.(als := Some(created)) else self, sources, Ok(created))
  }

  /**
   * The message raised for a failed point cloud. The base text always comes
   * first; the formatted error details follow after a blank line only when
   * an error object is present and its formatting is non-empty. The error
   * formatter lives outside this model and is a parameter.
   */
  function FailureText(s: Snapshot, format: ProcessingError -> string): (m: string)
    ensures FailureMessage <= m
    ensures m == FailureMessage <==> s.error.None? || format(s.error.value) == ""
    ensures s.error.Some? && format(s.error.value) != "" ==> m[|FailureMessage|..] == "\n\n" + format(s.error.value)
  {
    match s.error
    case None => FailureMessage
    case Some(e) =>
      var details := format(e);
      if details != "" then FailureMessage + "\n\n" + details else FailureMessage
  }

  /**
   * `AlsPointCloud.wait_until_completed`: a "failed" status raises
   * `RuntimeError` with the failure text (checked before the deadline, so it
   * wins over a timeout), a pending status at the deadline raises
   * `TimeoutError`, and "completed" is returned.
   */
  function WaitUntilCompleted(self: Handle, server: Server, step: nat, timeout: int, inPlace: bool,
                              format: ProcessingError -> string): (c: Call<Returned>)
    requires step > 0
    ensures StopsAt(WaitPolicy, server, step, timeout, c.fetches)
    ensures c.result.Ok? <==> server(c.fetches - 1).Got? && server(c.fetches - 1).snapshot.status == "completed"
    ensures c.result.Ok? ==> c.result.value == Returned(Handle(self.id, server(c.fetches - 1).snapshot), inPlace)
    ensures c.result == Err(TimeoutError(TimeoutMessage)) <==> Pending(WaitPolicy, server(c.fetches - 1))
    ensures c.result.Err? && c.result.error.RuntimeError? <==>
              server(c.fetches - 1).Got? && server(c.fetches - 1).snapshot.status == "failed"
    ensures c.result.Err? && c.result.error.RuntimeError? ==>
              c.result.error.message == FailureText(server(c.fetches - 1).snapshot, format)
    ensures c.result.Err? ==> c.result.error.RuntimeError? || c.result.error == TimeoutError(TimeoutMessage) || c.result.error.ApiFailure?
    ensures c.self == (if inPlace then Refreshed(self, LastSeen(server, c.fetches)) else self)
  {
    WaitFetching(self, server, WaitPolicy, step, timeout, inPlace, TimeoutMessage, (s: Snapshot) => FailureText(s, format))
  }

  /**
   * The wait returns the first "completed" snapshot reached before the
   * deadline, after exactly as many fetches as it took to see it.
   */
  lemma CompletesOnFirstCompleted(self: Handle, server: Server, step: nat, timeout: int, inPlace: bool,
                                   format: ProcessingError -> string, m: nat)
    requires step > 0
    requires m <= LeastK(timeout, step)
    requires forall j :: 0 <= j < m ==> Pending(WaitPolicy, server(j))
    requires server(m).Got? && server(m).snapshot.status == "completed"
    ensures WaitUntilCompleted(self, server, step, timeout, inPlace, format).fetches == m + 1
    ensures WaitUntilCompleted(self, server, step, timeout, inPlace, format).result
         == Ok(Returned(Handle(self.id, server(m).snapshot), inPlace))
  {
    var c := WaitUntilCompleted(self, server, step, timeout, inPlace, format);
    assert StopsAt(WaitPolicy, server, step, timeout, m + 1);
    StopsAtUnique(WaitPolicy, server, step, timeout, c.fetches, m + 1);
  }

  /**
   * Creating in place and creating without it make the same handle; in place
   * it also becomes the domain's ALS point cloud.
   */
  lemma CreateModesAgree(self: PointClouds, sources: StrOrList, response: Fetch)
    requires response.Got?
    ensures CreateAlsPointCloud(self, sources, true, response).result == CreateAlsPointCloud(self, sources, false, response).result
    ensures CreateAlsPointCloud(self, sources, true, response).self.als
         == Some(CreateAlsPointCloud(self, sources, false, response).result.value)
    ensures CreateAlsPointCloud(self, sources, false, response).self == self
  {
  }

  /**
   * A point cloud that is "running" until the deadline iteration and then
   * "failed" raises the failure, not the timeout, because the failure check
   * comes first.
   */
  lemma FailureBeatsTimeout(self: Handle, server: Server, step: nat, timeout: int, inPlace: bool,
                            format: ProcessingError -> string)
    requires step > 0
    requires forall j :: 0 <= j < LeastK(timeout, step) ==> server(j).Got? && server(j).snapshot.status == "running"
    requires server(LeastK(timeout, step)).Got? && server(LeastK(timeout, step)).snapshot.status == "failed"
    ensures WaitUntilCompleted(self, server, step, timeout, inPlace, format).result.Err?
    ensures WaitUntilCompleted(self, server, step, timeout, inPlace, format).result.error.RuntimeError?
    ensures WaitUntilCompleted(self, server, step, timeout, inPlace, format).fetches == LeastK(timeout, step) + 1
  {
    var m := LeastK(timeout, step);
    assert forall j :: 0 <= j < m ==> Pending(WaitPolicy, server(j));
    StopsAtFirstNonPending(WaitPolicy, server, step, timeout, m);
  }

  /** `_convert_api_models_to_sdk_classes` of the point-cloud module: only a present, truthy "als" becomes a handle. */
  function ConvertPointClouds(domainId: string, data: map<string, Json>): (r: map<string, Entry>)
    ensures Unwrap(r) == data
    ensures "als" in data && Truthy(data["als"]) ==> r["als"] == Wrapped(domainId, data["als"])
    ensures forall k :: k in r && r[k].Wrapped? ==> k == "als"
  {
    ConvertLosesNothing(domainId, data, {"als"});
    ConvertEntries(domainId, data, {"als"})
  }
}
