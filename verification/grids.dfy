/**
 * The topography, tree and feature grid handles of a domain: each is
 * fetched with `get(in_place)` and waited on with the completed-only loop,
 * differing only in the timeout message.
 */
module Grids {
  import opened Values
  import opened Polling
  import opened Resources

  /** The grid handles that share this wait. */
  datatype GridKind = Topography | Tree | Feature

  /** Every one of these waits stops on "completed" only. */
  const WaitPolicy := Policy("completed", None)

  /** The timeout message of each grid's wait. */
  function TimeoutMessage(kind: GridKind): string
  {
    match kind
    case Topography => "Timed out waiting for topography grid to finish."
    case Tree => "Timed out waiting for tree grid to finish."
    case Feature => "Timed out waiting for feature grid to finish."
  }

  /**
   * `TopographyGrid.wait_until_completed`, `TreeGrid.wait_until_completed`
   * and `FeatureGrid.wait_until_completed`.
   */
  function WaitUntilCompleted(kind: GridKind, self: Handle, server: Server, step: nat, timeout: int, inPlace: bool): (c: Call<Returned>)
    requires step > 0
    ensures StopsAt(WaitPolicy, server, step, timeout, c.fetches)
    ensures c.result.Ok? <==> server(c.fetches - 1).Got? && server(c.fetches - 1).snapshot.status == "completed"
    ensures c.result.Ok? ==> c.result.value == Returned(Handle(self.id, server(c.fetches - 1).snapshot), inPlace)
    ensures c.result == Err(TimeoutError(TimeoutMessage(kind))) <==> Pending(WaitPolicy, server(c.fetches - 1))
    ensures c.result.Err? ==> c.result.error == TimeoutError(TimeoutMessage(kind)) || c.result.error.ApiFailure?
    ensures c.self == (if inPlace then Refreshed(self, LastSeen(server, c.fetches)) else self)
  {
    WaitFetching(self, server, WaitPolicy, step, timeout, inPlace, TimeoutMessage(kind), (s: Snapshot) => "")
  }

  /**
   * A grid reporting "failed" on every poll is still polled until the
   * deadline: these waits have no failure check.
   */
  lemma FailedGridTimesOut(kind: GridKind, self: Handle, server: Server, step: nat, timeout: int, inPlace: bool)
    requires step > 0
    requires forall j: nat :: server(j).Got? && server(j).snapshot.status == "failed"
    ensures WaitUntilCompleted(kind, self, server, step, timeout, inPlace).result == Err(TimeoutError(TimeoutMessage(kind)))
    ensures WaitUntilCompleted(kind, self, server, step, timeout, inPlace).fetches == LeastK(timeout, step) + 1
  {
    assert forall j: nat :: Pending(WaitPolicy, server(j));
    NeverTerminalTimesOut(WaitPolicy, server, step, timeout);
  }

  /**
   * Whether in place or not, a wait makes the same fetches and returns the
   * same data; in place, a successful wait leaves the caller's handle equal
   * to what it returns.
   */
  lemma WaitModesAgree(kind: GridKind, self: Handle, server: Server, step: nat, timeout: int)
    requires step > 0
    ensures WaitUntilCompleted(kind, self, server, step, timeout, true).fetches
         == WaitUntilCompleted(kind, self, server, step, timeout, false).fetches
    ensures WaitUntilCompleted(kind, self, server, step, timeout, true).result.Ok?
         == WaitUntilCompleted(kind, self, server, step, timeout, false).result.Ok?
    ensures WaitUntilCompleted(kind, self, server, step, timeout, true).result.Ok? ==>
              WaitUntilCompleted(kind, self, server, step, timeout, true).result.value.value
                == WaitUntilCompleted(kind, self, server, step, timeout, false).result.value.value
              && WaitUntilCompleted(kind, self, server, step, timeout, true).self
                == WaitUntilCompleted(kind, self, server, step, timeout, true).result.value.value
  {
    var a := WaitUntilCompleted(kind, self, server, step, timeout, true);
    var b := WaitUntilCompleted(kind, self, server, step, timeout, false);
    StopsAtUnique(WaitPolicy, server, step, timeout, a.fetches, b.fetches);
  }
}
