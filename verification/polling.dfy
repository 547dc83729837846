/**
 * The completion-polling loop that every resource class repeats.
 *
 * The loop fetches the resource once, and then, while the status is not the
 * terminal one, (1) optionally raises on a failure status, (2) raises a
 * timeout when the elapsed time has reached the limit, (3) sleeps one step,
 * adds the step to the elapsed time and fetches again. The timeout check
 * comes BEFORE the sleep, so the deadline is only noticed on the iteration
 * after it has passed.
 *
 * The remote service is a `Server`: the response to the n-th fetch (counting
 * from 0). Sleeping is not modelled; the clock is the `elapsed` counter the
 * loop keeps, in whole time units.
 */
module Polling {
  import opened Values

  /** An error object attached to a failed processing job. */
  datatype ProcessingError = ProcessingError(fields: map<string, Json>)

  /** One fetched representation of a remote resource. */
  datatype Snapshot = Snapshot(
    status: string,
    name: string,
    error: Option<ProcessingError>,
    fields: map<string, Json>)

  /** The outcome of one fetch: a snapshot, or an error raised by the API client. */
  datatype Fetch = Got(snapshot: Snapshot) | Raised(error: ApiError)

  /** The responses of the remote service to successive fetches. */
  type Server = nat -> Fetch

  /** The terminal status the loop waits for, and the status (if any) it raises on. */
  datatype Policy = Policy(done: string, failOn: Option<string>)

  /** How the loop ended. */
  datatype Verdict =
    | Completed(snapshot: Snapshot)
    | Failed(snapshot: Snapshot)
    | TimedOut
    | Errored(error: ApiError)

  /**
   * The end of a wait: the verdict, the number of fetches made, the elapsed
   * time, and the last snapshot fetched successfully.
   */
  datatype Outcome = Outcome(verdict: Verdict, fetches: nat, elapsed: nat, last: Option<Snapshot>)

  /** A response that makes the loop go round again (if time remains). */
  predicate Pending(policy: Policy, f: Fetch)
  {
    f.Got? && f.snapshot.status != policy.done && policy.failOn != Some(f.snapshot.status)
  }

  /** The least k with k * step >= timeout. */
  function LeastK(timeout: int, step: nat): nat
    requires step > 0
    decreases if timeout <= 0 then 0 else timeout
  {
    if timeout <= 0 then 0 else 1 + LeastK(timeout - step, step)
  }

  /** LeastK really is the least multiple count reaching the timeout. */
  lemma {:induction false} LeastKIsLeast(timeout: int, step: nat)
    requires step > 0
    ensures LeastK(timeout, step) * step >= timeout
    ensures forall k: nat :: k * step >= timeout ==> k >= LeastK(timeout, step)
    decreases if timeout <= 0 then 0 else timeout
  {
    if timeout > 0 {
      LeastKIsLeast(timeout - step, step);
      var n := LeastK(timeout - step, step);
      assert (n + 1) * step == n * step + step;
      forall k: nat | k * step >= timeout
        ensures k >= LeastK(timeout, step)
      {
        if k > 0 {
          assert (k - 1) * step == k * step - step;
          assert (k - 1) * step >= timeout - step;
        }
      }
    }
  }

  /** Below LeastK the elapsed time is still under the limit. */
  lemma BelowLeastK(timeout: int, step: nat, k: nat)
    requires step > 0
    requires k < LeastK(timeout, step)
    ensures k * step < timeout
  {
    LeastKIsLeast(timeout, step);
  }

  /**
   * The reference description of where a wait stops: n fetches are made when
   * every fetch before the last one was pending, the last one happened no
   * later than the deadline iteration, and the last one either was not
   * pending or was the deadline iteration itself.
   */
  ghost predicate StopsAt(policy: Policy, server: Server, step: nat, timeout: int, n: nat)
    requires step > 0
  {
    && 1 <= n <= LeastK(timeout, step) + 1
    && (forall j :: 0 <= j < n - 1 ==> Pending(policy, server(j)))
    && (!Pending(policy, server(n - 1)) || n - 1 == LeastK(timeout, step))
  }

  /** At most one fetch count satisfies the reference description. */
  lemma StopsAtUnique(policy: Policy, server: Server, step: nat, timeout: int, n: nat, m: nat)
    requires step > 0
    requires StopsAt(policy, server, step, timeout, n)
    requires StopsAt(policy, server, step, timeout, m)
    ensures n == m
  {
  }

  /** The verdict the loop reaches on the fetch it stops at. */
  function Decide(policy: Policy, f: Fetch): (v: Verdict)
    ensures v.TimedOut? <==> Pending(policy, f)
    ensures v.Errored? <==> f.Raised?
    ensures v.Completed? <==> f.Got? && f.snapshot.status == policy.done
    ensures v.Failed? <==> f.Got? && f.snapshot.status != policy.done && policy.failOn == Some(f.snapshot.status)
    ensures v.Completed? || v.Failed? ==> v.snapshot == f.snapshot
    ensures v.Errored? ==> v.error == f.error
  {
    match f
    case Raised(e) => Errored(e)
    case Got(s) =>
      if s.status == policy.done then Completed(s)
      else if policy.failOn == Some(s.status) then Failed(s)
      else TimedOut
  }

  /** The last snapshot fetched successfully among the first n fetches of a run that stops after n. */
  function LastSeen(server: Server, n: nat): (o: Option<Snapshot>)
  {
    if n >= 1 && server(n - 1).Got? then Some(server(n - 1).snapshot)
    else if n >= 2 && server(n - 2).Got? then Some(server(n - 2).snapshot)
    else None
  }

  /**
   * The loop after `fetched` fetches, `current` being the last response and
   * `elapsed` the time counted so far.
   */
  function Loop(policy: Policy, server: Server, step: nat, timeout: int,
                fetched: nat, elapsed: nat, current: Snapshot): (o: Outcome)
    requires step > 0
    requires fetched >= 1 && elapsed == (fetched - 1) * step
    requires fetched - 1 <= LeastK(timeout, step)
    requires server(fetched - 1) == Got(current)
    requires forall j :: 0 <= j < fetched - 1 ==> Pending(policy, server(j))
    ensures o.fetches >= fetched
    ensures o.elapsed == (o.fetches - 1) * step
    ensures StopsAt(policy, server, step, timeout, o.fetches)
    ensures o.verdict == Decide(policy, server(o.fetches - 1))
    ensures o.last == LastSeen(server, o.fetches)
    decreases timeout - elapsed
  {
    if current.status == policy.done then
      Outcome(Completed(current), fetched, elapsed, Some(current))
    else if policy.failOn == Some(current.status) then
      Outcome(Failed(current), fetched, elapsed, Some(current))
    else if elapsed >= timeout then
      LeastKIsLeast(timeout, step);
      Outcome(TimedOut, fetched, elapsed, Some(current))
    else
      assert fetched - 1 < LeastK(timeout, step) by {
        if fetched - 1 == LeastK(timeout, step) {
          LeastKIsLeast(timeout, step);
        }
      }
      assert elapsed + step == fetched * step;
      match server(fetched)
      case Raised(e) => Outcome(Errored(e), fetched + 1, elapsed + step, Some(current))
      case Got(next) => Loop(policy, server, step, timeout, fetched + 1, elapsed + step, next)
  }

  /**
   * The whole wait: the first fetch happens at elapsed time 0, then the loop.
   * The fetch count is the one the reference description singles out, the
   * verdict is decided by the last response alone, and elapsed time is one
   * step per fetch after the first.
   */
  function Wait(policy: Policy, server: Server, step: nat, timeout: int): (o: Outcome)
    requires step > 0
    ensures StopsAt(policy, server, step, timeout, o.fetches)
    ensures o.verdict == Decide(policy, server(o.fetches - 1))
    ensures o.elapsed == (o.fetches - 1) * step
    ensures o.last == LastSeen(server, o.fetches)
  {
    match server(0)
    case Raised(e) => Outcome(Errored(e), 1, 0, None)
    case Got(first) => Loop(policy, server, step, timeout, 1, 0, first)
  }

  /**
   * If the first response is already terminal the wait makes exactly one
   * fetch and never sleeps.
   */
  lemma FirstResponseTerminal(policy: Policy, server: Server, step: nat, timeout: int)
    requires step > 0
    requires !Pending(policy, server(0))
    ensures Wait(policy, server, step, timeout).fetches == 1
    ensures Wait(policy, server, step, timeout).elapsed == 0
    ensures Wait(policy, server, step, timeout).verdict == Decide(policy, server(0))
  {
  }

  /**
   * A resource that never leaves a pending status is fetched exactly
   * LeastK(timeout, step) + 1 times and the wait times out.
   */
  lemma {:induction false} NeverTerminalTimesOut(policy: Policy, server: Server, step: nat, timeout: int)
    requires step > 0
    requires forall j: nat :: Pending(policy, server(j))
    ensures Wait(policy, server, step, timeout).fetches == LeastK(timeout, step) + 1
    ensures Wait(policy, server, step, timeout).verdict == TimedOut
    ensures Wait(policy, server, step, timeout).elapsed == LeastK(timeout, step) * step
  {
    var o := Wait(policy, server, step, timeout);
    assert Pending(policy, server(o.fetches - 1));
  }

  /**
   * The wait stops at the first response that is not pending, provided that
   * response arrives no later than the deadline iteration; in particular a
   * failure status is reported even when the time limit has already passed.
   */
  lemma StopsAtFirstNonPending(policy: Policy, server: Server, step: nat, timeout: int, m: nat)
    requires step > 0
    requires m <= LeastK(timeout, step)
    requires forall j :: 0 <= j < m ==> Pending(policy, server(j))
    requires !Pending(policy, server(m))
    ensures Wait(policy, server, step, timeout).fetches == m + 1
    ensures Wait(policy, server, step, timeout).verdict == Decide(policy, server(m))
  {
    var o := Wait(policy, server, step, timeout);
    assert StopsAt(policy, server, step, timeout, m + 1);
    StopsAtUnique(policy, server, step, timeout, o.fetches, m + 1);
  }

  /** Status "queued", "queued", "running", "completed" with step 1 and limit 10: four fetches, the fourth returned. */
  lemma ScenarioCompletesOnFourthFetch(s0: Snapshot, s1: Snapshot, s2: Snapshot, s3: Snapshot)
    requires s0.status == "queued" && s1.status == "queued" && s2.status == "running"
    requires s3.status == "completed"
    ensures var server: Server := (j: nat) => if j == 0 then Got(s0) else if j == 1 then Got(s1)
                                             else if j == 2 then Got(s2) else Got(s3);
            var o := Wait(Policy("completed", None), server, 1, 10);
            o.fetches == 4 && o.verdict == Completed(s3) && o.elapsed == 3
  {
    var server: Server := (j: nat) => if j == 0 then Got(s0) else if j == 1 then Got(s1)
                                    else if j == 2 then Got(s2) else Got(s3);
    var p := Policy("completed", None);
    LeastKIsLeast(10, 1);
    assert LeastK(10, 1) >= 3;
    StopsAtFirstNonPending(p, server, 1, 10, 3);
  }

  /** Always "running" with step 1 and limit 3: polls at t = 0, 1, 2, 3, so four fetches, then a timeout. */
  lemma ScenarioAlwaysRunning(s: Snapshot)
    requires s.status == "running"
    ensures var o := Wait(Policy("completed", None), (j: nat) => Got(s), 1, 3);
            o.fetches == 4 && o.verdict == TimedOut && o.elapsed == 3
  {
    var p := Policy("completed", None);
    var server: Server := (j: nat) => Got(s);
    assert LeastK(3, 1) == 3;
    NeverTerminalTimesOut(p, server, 1, 3);
  }
}
