/**
 * Local handles on remote resources and the two ways the SDK keeps them in
 * step with the server:
 *  - the current API classes (`get(in_place)`, `wait_until_completed`) fetch
 *    with `in_place` forwarded to every fetch, so an in-place wait overwrites
 *    the handle on each poll and returns the handle itself;
 *  - the legacy classes (`refresh(inplace)`, `wait_until_finished`) fetch a
 *    fresh object and, when `inplace`, replace the handle's state with it
 *    once, at the end, returning `None`.
 */
module Resources {
  import opened Values
  import opened Polling

  /**
   * A handle: the id it is addressed by (a domain id for the current API
   * classes, the resource's own id for the legacy ones) and its cached state.
   */
  datatype Handle = Handle(id: string, state: Snapshot)

  /** A returned handle and whether it is the caller's own object. */
  datatype Returned = Returned(value: Handle, isSelf: bool)

  /** The caller's handle after a call, what the call returned or raised, and how many fetches it made. */
  datatype Call<+T> = Call(self: Handle, result: Result<T>, fetches: nat)

  /** The handle after its fields have been overwritten with the last snapshot seen, if any. */
  function Refreshed(self: Handle, seen: Option<Snapshot>): (h: Handle)
    ensures h.id == self.id
    ensures seen.None? ==> h == self
    ensures seen.Some? ==> h.state == seen.value
  {
    match seen
    case None => self
    case Some(s) => Handle(self.id, s)
  }

  /**
   * `get(in_place)`: one fetch; in place, the handle's fields are
   * overwritten and the handle itself is returned; otherwise a new handle is
   * built from the response and the caller's handle is left alone. An API
   * error propagates with the handle untouched.
   */
  function Get(self: Handle, fetch: Fetch, inPlace: bool): (c: Call<Returned>)
    ensures c.fetches == 1
    ensures fetch.Raised? ==> c.self == self && c.result == Err(ApiFailure(fetch.error))
    ensures fetch.Got? ==> c.result.Ok? && c.result.value.value == Handle(self.id, fetch.snapshot)
    ensures c.result.Ok? ==> (c.result.value.isSelf <==> inPlace)
    ensures inPlace && c.result.Ok? ==> c.self == c.result.value.value
    ensures !inPlace ==> c.self == self
  {
    match fetch
    case Raised(e) => Call(self, Err(ApiFailure(e)), 1)
    case Got(s) =>
      if inPlace then Call(Handle(self.id, s), Ok(Returned(Handle(self.id, s), true)), 1)
      else Call(self, Ok(Returned(Handle(self.id, s), false)), 1)
  }

  /**
   * Both modes of `get` return the same data; they differ only in whether
   * the caller's handle is the returned object, and an in-place refresh
   * repeated on the same response changes nothing more.
   */
  lemma GetModesAgree(self: Handle, fetch: Fetch)
    requires fetch.Got?
    ensures Get(self, fetch, true).result.value.value == Get(self, fetch, false).result.value.value
    ensures Get(self, fetch, true).self == Get(self, fetch, false).result.value.value
    ensures Get(Get(self, fetch, true).self, fetch, true) == Get(self, fetch, true)
  {
  }

  /**
   * `wait_until_completed` of the current API classes: the polling loop with
   * `in_place` forwarded to every fetch. A completed wait returns the last
   * snapshot (as the handle itself when in place); a pending snapshot at the
   * deadline raises `TimeoutError`, a failure status raises `RuntimeError`
   * with the message built from that snapshot, and an API error propagates.
   * In place, the handle holds the last snapshot fetched, however the wait
   * ended.
   */
  function WaitFetching(self: Handle, server: Server, policy: Policy, step: nat, timeout: int,
                        inPlace: bool, timeoutMessage: string,
                        failureMessage: Snapshot -> string): (c: Call<Returned>)
    requires step > 0
    ensures StopsAt(policy, server, step, timeout, c.fetches)
    ensures c.result.Ok? <==> server(c.fetches - 1).Got? && server(c.fetches - 1).snapshot.status == policy.done
    ensures c.result.Ok? ==> c.result.value == Returned(Handle(self.id, server(c.fetches - 1).snapshot), inPlace)
    ensures c.result == Err(TimeoutError(timeoutMessage)) <==> Pending(policy, server(c.fetches - 1))
    ensures c.result.Err? && c.result.error.RuntimeError? <==>
              server(c.fetches - 1).Got? && server(c.fetches - 1).snapshot.status != policy.done &&
              policy.failOn == Some(server(c.fetches - 1).snapshot.status)
    ensures c.result.Err? && c.result.error.RuntimeError? ==>
              c.result.error.message == failureMessage(server(c.fetches - 1).snapshot)
    ensures c.result.Err? && c.result.error.ApiFailure? <==> server(c.fetches - 1).Raised?
    ensures c.result.Err? ==> c.result.error.TimeoutError? || c.result.error.RuntimeError? || c.result.error.ApiFailure?
    ensures c.self == (if inPlace then Refreshed(self, LastSeen(server, c.fetches)) else self)
  {
    var o := Wait(policy, server, step, timeout);
    var after := if inPlace then Refreshed(self, o.last) else self;
    match o.verdict
    case Completed(s) => Call(after, Ok(Returned(Handle(self.id, s), inPlace)), o.fetches)
    case Failed(s) => Call(after, Err(RuntimeError(failureMessage(s))), o.fetches)
    case TimedOut => Call(after, Err(TimeoutError(timeoutMessage)), o.fetches)
    case Errored(e) => Call(after, Err(ApiFailure(e)), o.fetches)
  }

  /**
   * `refresh(inplace)` / `update(..., inplace)` of the legacy classes: the
   * handle's state is replaced by the response and `None` is returned, or
   * the response is returned and the handle is left alone.
   */
  function LegacyRefresh(self: Handle, fetch: Fetch, inplace: bool): (c: Call<Option<Handle>>)
    ensures c.fetches == 1
    ensures fetch.Raised? ==> c.self == self && c.result == Err(ApiFailure(fetch.error))
    ensures fetch.Got? && inplace ==> c.self == Handle(self.id, fetch.snapshot) && c.result == Ok(None)
    ensures fetch.Got? && !inplace ==> c.self == self && c.result == Ok(Some(Handle(self.id, fetch.snapshot)))
  {
    match fetch
    case Raised(e) => Call(self, Err(ApiFailure(e)), 1)
    case Got(s) =>
      if inplace then Call(Handle(self.id, s), Ok(None), 1)
      else Call(self, Ok(Some(Handle(self.id, s))), 1)
  }

  /** Whichever mode is used, a legacy refresh ends with the same state visible to the caller. */
  lemma LegacyModesAgree(self: Handle, fetch: Fetch)
    requires fetch.Got?
    ensures LegacyRefresh(self, fetch, true).self == LegacyRefresh(self, fetch, false).result.value.value
  {
  }

  /**
   * `self.__dict__.update(other.__dict__)`: the new object's attributes win
   * and attributes only the old object had survive.
   */
  function Merged(before: Snapshot, after: Snapshot): (m: Snapshot)
    ensures m.status == after.status && m.name == after.name && m.error == after.error
    ensures m.fields.Keys == before.fields.Keys + after.fields.Keys
    ensures forall k :: k in after.fields ==> m.fields[k] == after.fields[k]
    ensures forall k :: k in before.fields && k !in after.fields ==> m.fields[k] == before.fields[k]
  {
    Snapshot(after.status, after.name, after.error, before.fields + after.fields)
  }

  /** When the after object has every attribute of the before one, merging is replacing. */
  lemma MergeIsReplaceWhenComplete(before: Snapshot, after: Snapshot)
    requires before.fields.Keys <= after.fields.Keys
    ensures Merged(before, after) == after
  {
    assert (before.fields + after.fields).Keys == after.fields.Keys;
    assert forall k :: k in after.fields ==> (before.fields + after.fields)[k] == after.fields[k];
  }

  /** Merging the same after object a second time changes nothing. */
  lemma MergedIdempotent(before: Snapshot, after: Snapshot)
    ensures Merged(Merged(before, after), after) == Merged(before, after)
  {
    var m := before.fields + after.fields;
    assert (m + after.fields).Keys == m.Keys;
    assert forall k :: k in m ==> (m + after.fields)[k] == m[k];
  }

  /**
   * The merging variant of `LegacyRefresh` (dataset refresh and update,
   * treelist update): when `inplace` the response's attributes are merged
   * into the handle and `None` is returned.
   */
  function LegacyMerge(self: Handle, fetch: Fetch, inplace: bool): (c: Call<Option<Handle>>)
    ensures c.fetches == 1
    ensures fetch.Raised? ==> c.self == self && c.result == Err(ApiFailure(fetch.error))
    ensures fetch.Got? && inplace ==> c.self == Handle(self.id, Merged(self.state, fetch.snapshot)) && c.result == Ok(None)
    ensures fetch.Got? && !inplace ==> c.self == self && c.result == Ok(Some(Handle(self.id, fetch.snapshot)))
  {
    match fetch
    case Raised(e) => Call(self, Err(ApiFailure(e)), 1)
    case Got(s) =>
      if inplace then Call(Handle(self.id, Merged(self.state, s)), Ok(None), 1)
      else Call(self, Ok(Some(Handle(self.id, s))), 1)
  }

  /**
   * `wait_until_finished` of the legacy classes: the polling loop over plain
   * fetches; only a completed wait touches the handle, and then only when
   * `inplace`, in which case `None` is returned.
   */
  function WaitReplacing(self: Handle, server: Server, policy: Policy, step: nat, timeout: int,
                         inplace: bool, timeoutMessage: string,
                         failureMessage: Snapshot -> string): (c: Call<Option<Handle>>)
    requires step > 0
    ensures StopsAt(policy, server, step, timeout, c.fetches)
    ensures c.result.Ok? <==> server(c.fetches - 1).Got? && server(c.fetches - 1).snapshot.status == policy.done
    ensures c.result.Ok? && inplace ==>
              c.result.value.None? && c.self == Handle(self.id, server(c.fetches - 1).snapshot)
    ensures c.result.Ok? && !inplace ==> c.result.value == Some(Handle(self.id, server(c.fetches - 1).snapshot))
    ensures c.result.Err? || !inplace ==> c.self == self
    ensures c.result == Err(TimeoutError(timeoutMessage)) <==> Pending(policy, server(c.fetches - 1))
    ensures c.result.Err? && c.result.error.RuntimeError? <==>
              server(c.fetches - 1).Got? && server(c.fetches - 1).snapshot.status != policy.done &&
              policy.failOn == Some(server(c.fetches - 1).snapshot.status)
    ensures c.result.Err? && c.result.error.RuntimeError? ==>
              c.result.error.message == failureMessage(server(c.fetches - 1).snapshot)
    ensures c.result.Err? && c.result.error.ApiFailure? <==> server(c.fetches - 1).Raised?
    ensures c.result.Err? ==> c.result.error.TimeoutError? || c.result.error.RuntimeError? || c.result.error.ApiFailure?
  {
    var o := Wait(policy, server, step, timeout);
    match o.verdict
    case Completed(s) =>
      if inplace then Call(Handle(self.id, s), Ok(None), o.fetches)
      else Call(self, Ok(Some(Handle(self.id, s))), o.fetches)
    case Failed(s) => Call(self, Err(RuntimeError(failureMessage(s))), o.fetches)
    case TimedOut => Call(self, Err(TimeoutError(timeoutMessage)), o.fetches)
    case Errored(e) => Call(self, Err(ApiFailure(e)), o.fetches)
  }

  /** A response entry after conversion: left as decoded, or wrapped into an SDK handle class bound to the domain. */
  datatype Entry = Plain(json: Json) | Wrapped(domainId: string, json: Json)

  /**
   * `_convert_api_models_to_sdk_classes`: every key named in `kinds` that is
   * present with a truthy value is wrapped into its SDK class; every other
   * entry (absent, `None`, empty, or another key) is left as it was.
   */
  function ConvertEntries(domainId: string, data: map<string, Json>, kinds: set<string>): (r: map<string, Entry>)
    ensures r.Keys == data.Keys
    ensures forall k :: k in r && r[k].Wrapped? ==> k in kinds && Truthy(data[k]) && r[k].domainId == domainId
    ensures forall k :: k in data && k in kinds && Truthy(data[k]) ==> r[k].Wrapped?
  {
    map k | k in data :: if k in kinds && Truthy(data[k]) then Wrapped(domainId, data[k]) else Plain(data[k])
  }

  /** The decoded value behind a converted entry. */
  function Unwrap(r: map<string, Entry>): (d: map<string, Json>)
    ensures d.Keys == r.Keys
  {
    map k | k in r :: r[k].json
  }

  /** Conversion only wraps: unwrapping gives back exactly the response data. */
  lemma ConvertLosesNothing(domainId: string, data: map<string, Json>, kinds: set<string>)
    ensures Unwrap(ConvertEntries(domainId, data, kinds)) == data
  {
    var r := ConvertEntries(domainId, data, kinds);
    assert forall k :: k in data ==> Unwrap(r)[k] == data[k];
  }
}
