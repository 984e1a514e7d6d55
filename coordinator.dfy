/** The per-device polling coordinator: one refresh cycle fetches the
    device's telemetry up to three times, sleeping 1 then 2 seconds between
    attempts, and retries only on transient library errors. */
module Coordinator {
  import opened Base
  import opened Text

  /** `UPDATE_INTERVAL`: five minutes, in seconds. */
  const UpdateIntervalSeconds: nat := 5 * 60
  /** `retries`: attempts per cycle. */
  const Retries: nat := 3
  /** The first backoff, in seconds. */
  const InitialBackoff: nat := 1

  /** A library error is transient when its message contains "502" or,
      ignoring case, "timeout". */
  predicate IsTransient(message: string) {
    Contains(message, "502") || Contains(Lower(message), "timeout")
  }

  /** Attempt `attempt` failed in a way the cycle retries: a transient
      library error on an attempt that is not the last. */
  predicate Retryable(fetches: seq<Result<Telemetry>>, attempt: nat)
    requires attempt < |fetches|
  {
    && attempt < Retries - 1
    && fetches[attempt].Err?
    && fetches[attempt].failure.Library?
    && IsTransient(fetches[attempt].failure.message)
  }

  /** How a cycle ends: it returns the data, raises `UpdateFailed`, or lets
      a non-library exception through. */
  datatype CycleEnd = Fetched(data: Telemetry) | UpdateFailed(message: string) | Raised(failure: Failure)

  /** One cycle: its end, the number of fetches made, and the backoff
      sleeps in the order they were taken (seconds). */
  datatype Cycle = Cycle(end: CycleEnd, attempts: nat, sleeps: seq<nat>)

  /** The end of a cycle whose fetch is not retried. */
  function Settle(outcome: Result<Telemetry>): CycleEnd {
    match outcome
    case Ok(d) => Fetched(d)
    case Err(Library(m)) => UpdateFailed("Get data failed: " + m)
    case Err(Other(m)) => Raised(Other(m))
  }

  function Pow2(n: nat): (r: nat)
    ensures r >= 1
  {
    if n == 0 then 1 else 2 * Pow2(n - 1)
  }

  /** The rest of a cycle from attempt `attempt` with the current backoff;
      `fetches[k]` is what the `k`-th call to `get_data` would give. */
  function CycleFrom(fetches: seq<Result<Telemetry>>, attempt: nat, backoff: nat): Cycle
    requires attempt < Retries <= |fetches|
    decreases Retries - attempt
  {
    if Retryable(fetches, attempt) then
      var rest := CycleFrom(fetches, attempt + 1, backoff * 2);
      rest.(sleeps := [backoff] + rest.sleeps)
    else
      Cycle(Settle(fetches[attempt]), attempt + 1, [])
  }

  /** A whole cycle, `_async_update_data`. */
  function RunCycle(fetches: seq<Result<Telemetry>>): Cycle
    requires Retries <= |fetches|
  {
    CycleFrom(fetches, 0, InitialBackoff)
  }

  lemma {:induction false} CycleFromShape(fetches: seq<Result<Telemetry>>, attempt: nat, backoff: nat)
    requires attempt < Retries <= |fetches|
    ensures var c := CycleFrom(fetches, attempt, backoff);
      && attempt < c.attempts <= Retries
      && |c.sleeps| == c.attempts - 1 - attempt
      && (forall j :: attempt <= j < c.attempts - 1 ==> Retryable(fetches, j))
      && !Retryable(fetches, c.attempts - 1)
      && c.end == Settle(fetches[c.attempts - 1])
      && (forall i :: 0 <= i < |c.sleeps| ==> c.sleeps[i] == backoff * Pow2(i))
    decreases Retries - attempt
  {
    if Retryable(fetches, attempt) {
      CycleFromShape(fetches, attempt + 1, backoff * 2);
      var rest := CycleFrom(fetches, attempt + 1, backoff * 2);
      var c := CycleFrom(fetches, attempt, backoff);
      assert c.sleeps == [backoff] + rest.sleeps;
      forall i | 0 < i < |c.sleeps| ensures c.sleeps[i] == backoff * Pow2(i) {
        assert c.sleeps[i] == rest.sleeps[i - 1] == backoff * 2 * Pow2(i - 1);
      }
    }
  }

  /** What a cycle does, stated without reference to how it is computed:
      it makes between one and three fetches; every fetch but the last
      failed transiently on a non-final attempt; the last is one it does not
      retry and decides the end; it sleeps once between consecutive fetches,
      for 1, 2, 4, ... seconds. */
  lemma RunCycleShape(fetches: seq<Result<Telemetry>>)
    requires Retries <= |fetches|
    ensures var c := RunCycle(fetches);
      && 1 <= c.attempts <= Retries
      && |c.sleeps| == c.attempts - 1
      && (forall j :: 0 <= j < c.attempts - 1 ==> Retryable(fetches, j))
      && !Retryable(fetches, c.attempts - 1)
      && c.end == Settle(fetches[c.attempts - 1])
      && (forall i :: 0 <= i < |c.sleeps| ==> c.sleeps[i] == Pow2(i))
  {
    CycleFromShape(fetches, 0, InitialBackoff);
  }

  /** The first fetch that succeeds ends the cycle with its data. */
  lemma FirstSuccessReturned(fetches: seq<Result<Telemetry>>, k: nat)
    requires Retries <= |fetches| && k < Retries
    requires fetches[k].Ok?
    requires forall j :: 0 <= j < k ==> Retryable(fetches, j)
    ensures RunCycle(fetches).end == Fetched(fetches[k].value)
    ensures RunCycle(fetches).attempts == k + 1
  {
    RunCycleShape(fetches);
  }

  /** Three transient library errors: sleeps of 1 and 2 seconds, no third
      sleep, and `UpdateFailed` carrying the last error. */
  lemma ThreeTransientFailures(fetches: seq<Result<Telemetry>>)
    requires |fetches| == Retries
    requires forall j :: 0 <= j < Retries ==>
      fetches[j].Err? && fetches[j].failure.Library? && IsTransient(fetches[j].failure.message)
    ensures RunCycle(fetches) == Cycle(UpdateFailed("Get data failed: " + fetches[2].failure.message), 3, [1, 2])
  {
    RunCycleShape(fetches);
    var c := RunCycle(fetches);
    assert Retryable(fetches, 0) && Retryable(fetches, 1);
    assert c.attempts == 3;
    assert c.sleeps[0] == 1 && c.sleeps[1] == Pow2(1) == 2;
  }

  /** A library error that is not transient ends the cycle after that one
      attempt, without sleeping. */
  lemma NonTransientFailsAtOnce(fetches: seq<Result<Telemetry>>)
    requires Retries <= |fetches|
    requires fetches[0].Err? && fetches[0].failure.Library? && !IsTransient(fetches[0].failure.message)
    ensures RunCycle(fetches) == Cycle(UpdateFailed("Get data failed: " + fetches[0].failure.message), 1, [])
  {
  }

  /** `_async_update_data`: the `for attempt in range(retries)` loop with a
      doubling backoff. The loop never falls through: on the last attempt
      every path returns or raises. */
  method UpdateData(fetches: seq<Result<Telemetry>>) returns (c: Cycle)
    requires Retries <= |fetches|
    ensures c == RunCycle(fetches)
  {
    var backoff := InitialBackoff;
    var sleeps: seq<nat> := [];
    for attempt := 0 to Retries
      invariant attempt < Retries
      invariant RunCycle(fetches) == CycleFrom(fetches, attempt, backoff).(sleeps := sleeps + CycleFrom(fetches, attempt, backoff).sleeps)
    {
      var outcome := fetches[attempt];
      if outcome.Ok? {
        return Cycle(Fetched(outcome.value), attempt + 1, sleeps);
      }
      if outcome.failure.Other? {
        return Cycle(Raised(outcome.failure), attempt + 1, sleeps);
      }
      var message := outcome.failure.message;
      if IsTransient(message) && attempt < Retries - 1 {
        sleeps := sleeps + [backoff];
        backoff := backoff * 2;
        continue;
      }
      return Cycle(UpdateFailed("Get data failed: " + message), attempt + 1, sleeps);
    }
    assert false;
  }

  /** The host's `DataUpdateCoordinator` around one device: the last data it
      published and whether the last refresh succeeded. */
  class DataCoordinator {
    const softener: Softener
    const updateInterval: nat
    var data: Option<Telemetry>
    var lastUpdateSuccess: bool

    constructor (softener: Softener)
      ensures this.softener == softener && updateInterval == UpdateIntervalSeconds
      ensures data == None && lastUpdateSuccess
    {
      this.softener := softener;
      updateInterval := UpdateIntervalSeconds;
      data := None;
      lastUpdateSuccess := true;
    }

    /** One scheduled refresh: a successful cycle publishes its data; a
        failed one keeps the last good data and marks the refresh failed. */
    method Refresh(fetches: seq<Result<Telemetry>>) returns (c: Cycle)
      requires Retries <= |fetches|
      modifies this
      ensures c == RunCycle(fetches)
      ensures c.end.Fetched? ==> data == Some(c.end.data) && lastUpdateSuccess
      ensures !c.end.Fetched? ==> data == old(data) && !lastUpdateSuccess
    {
      c := UpdateData(fetches);
      if c.end.Fetched? {
        data := Some(c.end.data);
        lastUpdateSuccess := true;
      } else {
        lastUpdateSuccess := false;
      }
    }
  }
}
