/** `waitForStatus`: polls a CloudFormation resource until its status
    settles. Each tick fetches the status once; the tick either stops or
    schedules exactly one further tick with the retry counter raised by one.
    The remote answers are an oracle indexed by the retry counter, so a run
    is a function of that oracle and of the counter it starts from. */
module Poller {
  import opened Text
  import opened Js

  /** The highest retry counter at which a tick may still succeed. */
  const Ceiling: nat := 120

  /** What one status fetch yields: the value found at the status path of
      the answer, or a failed request. */
  datatype Observation = Fetched(status: Value) | FetchFailed

  /** How polling ends. `Failed`: the status mentions FAILED. `Abandoned`:
      the counter passed the ceiling. `Error`: the fetch failed, or the status
      has no `includes` method. `Succeeded`: the resource was created. */
  datatype Outcome = Succeeded | Failed | Abandoned | Error

  /** What a tick does after its fetch. */
  datatype Tick = Stop(outcome: Outcome) | Reschedule(next: nat)

  /** The externally visible steps of a run, in order. */
  datatype Event = Fetch(retryCount: nat) | Callback

  datatype Run = Run(outcome: Outcome, events: seq<Event>)

  /** `status.includes("FAILED")`: text search in a string, element search
      in an array, and a TypeError for any other value. */
  function FailedCheck(status: Value): Completion<bool>
  {
    match status
    case Str(s) => Normal(Contains(s, "FAILED"))
    case Arr(xs) => Normal(Str("FAILED") in xs)
    case _ => Thrown
  }

  /** `FailedCheck` is JavaScript's `includes` with the argument "FAILED". */
  lemma FailedCheckIsIncludes(status: Value)
    ensures FailedCheck(status) == Includes(status, Str("FAILED"))
  {
    assert Show(Str("FAILED")) == "FAILED";
    if status.Arr? {
      var xs := status.items;
      if Str("FAILED") in xs {
        var i :| 0 <= i < |xs| && xs[i] == Str("FAILED");
        assert StrictEquals(xs[i], Str("FAILED"));
      }
    }
  }

  /** One tick, at retry counter `retryCount`, given what its fetch saw. */
  function Step(obs: Observation, retryCount: nat): Tick
  {
    match obs
    case FetchFailed => Stop(Error)
    case Fetched(status) =>
      match FailedCheck(status)
      case Thrown => Stop(Error)
      case Normal(failed) =>
        if failed then Stop(Failed)
        else if retryCount > Ceiling then Stop(Abandoned)
        else if StrictEquals(status, Str("CREATE_COMPLETE")) then Stop(Succeeded)
        else Reschedule(retryCount + 1)
  }

  function Fetches(events: seq<Event>): nat
  {
    if events == [] then 0 else (if events[0].Fetch? then 1 else 0) + Fetches(events[1..])
  }

  function Callbacks(events: seq<Event>): nat
  {
    if events == [] then 0 else (if events[0].Callback? then 1 else 0) + Callbacks(events[1..])
  }

  /** The most fetches a run starting at `retryCount` can make. */
  function FetchBudget(retryCount: nat): nat
  {
    if retryCount <= Ceiling + 1 then Ceiling + 2 - retryCount else 1
  }

  /** The whole run from `retryCount`: it terminates, fetches first, never
      fetches more than the budget allows (122 from 0), and calls back exactly
      once when it succeeds and never otherwise, as its last step. */
  function WaitForStatus(statusAt: nat -> Observation, retryCount: nat): (r: Run)
    ensures |r.events| >= 1 && r.events[0] == Fetch(retryCount)
    ensures 1 <= Fetches(r.events) <= FetchBudget(retryCount)
    ensures Callbacks(r.events) == if r.outcome == Succeeded then 1 else 0
    ensures r.outcome == Succeeded ==> r.events[|r.events| - 1] == Callback
    decreases Ceiling + 1 - retryCount
  {
    var tick := Step(statusAt(retryCount), retryCount);
    if tick.Stop? then
      if tick.outcome == Succeeded then
        var events := [Fetch(retryCount), Callback];
        assert events[1..] == [Callback] && events[1..][1..] == [];
        assert Fetches([Callback]) == 0 && Callbacks([Callback]) == 1;
        Run(Succeeded, events)
      else
        var events := [Fetch(retryCount)];
        assert events[1..] == [];
        Run(tick.outcome, events)
    else
      var rest := WaitForStatus(statusAt, tick.next);
      var events := [Fetch(retryCount)] + rest.events;
      assert events[1..] == rest.events;
      Run(rest.outcome, events)
  }

  /** A status that mentions FAILED ends polling at once: one fetch, no
      callback, no further tick. */
  lemma FailedStops(statusAt: nat -> Observation, k: nat, s: string)
    requires statusAt(k) == Fetched(Str(s)) && Contains(s, "FAILED")
    ensures WaitForStatus(statusAt, k) == Run(Failed, [Fetch(k)])
  {
  }

  /** Past the ceiling no tick succeeds, even on CREATE_COMPLETE, because the
      counter is checked first. */
  lemma PastCeilingNeverSucceeds(statusAt: nat -> Observation, k: nat)
    requires k > Ceiling
    ensures WaitForStatus(statusAt, k).outcome != Succeeded
    ensures WaitForStatus(statusAt, k).events == [Fetch(k)]
  {
  }

  /** The success value does not mention FAILED. */
  lemma CompleteIsNotFailure(s: string)
    requires s == "CREATE_COMPLETE"
    ensures !Contains(s, "FAILED")
  {
    if Contains(s, "FAILED") {
      ContainsHead(s, "FAILED");
    }
  }

  /** A tick within the ceiling that sees CREATE_COMPLETE succeeds. */
  lemma CompleteTick(status: Value, k: nat)
    requires k <= Ceiling && status == Str("CREATE_COMPLETE")
    ensures Step(Fetched(status), k) == Stop(Succeeded)
  {
    CompleteIsNotFailure(status.s);
  }

  /** CREATE_COMPLETE within the ceiling calls back once and stops. */
  lemma CompleteCallsBack(statusAt: nat -> Observation, k: nat)
    requires k <= Ceiling && statusAt(k) == Fetched(Str("CREATE_COMPLETE"))
    ensures WaitForStatus(statusAt, k) == Run(Succeeded, [Fetch(k), Callback])
  {
    CompleteTick(statusAt(k).status, k);
  }

  /** Any other string status within the ceiling schedules exactly one
      further tick, at counter `k + 1`. */
  lemma OtherStatusReschedules(statusAt: nat -> Observation, k: nat, s: string)
    requires k <= Ceiling && statusAt(k) == Fetched(Str(s))
    requires !Contains(s, "FAILED") && s != "CREATE_COMPLETE"
    ensures WaitForStatus(statusAt, k)
            == Run(WaitForStatus(statusAt, k + 1).outcome, [Fetch(k)] + WaitForStatus(statusAt, k + 1).events)
  {
  }

  /** A failed fetch, or a status that is missing at the status path, ends
      polling with no callback and no further tick. */
  lemma BrokenFetchStops(statusAt: nat -> Observation, k: nat)
    requires statusAt(k) == FetchFailed || statusAt(k) == Fetched(Undefined)
    ensures WaitForStatus(statusAt, k) == Run(Error, [Fetch(k)])
  {
  }

  /** A resource whose status never settles (the same in-progress string at
      every tick) is polled at every counter from `k` to 121 and then
      abandoned, without a callback. */
  lemma {:induction false} NeverSettles(statusAt: nat -> Observation, k: nat, s: string)
    requires k <= Ceiling + 1
    requires !Contains(s, "FAILED") && s != "CREATE_COMPLETE"
    requires forall j :: statusAt(j) == Fetched(Str(s))
    ensures WaitForStatus(statusAt, k).outcome == Abandoned
    ensures Fetches(WaitForStatus(statusAt, k).events) == Ceiling + 2 - k
    decreases Ceiling + 1 - k
  {
    if k <= Ceiling {
      NeverSettles(statusAt, k + 1, s);
      OtherStatusReschedules(statusAt, k, s);
      var rest := WaitForStatus(statusAt, k + 1);
      assert ([Fetch(k)] + rest.events)[1..] == rest.events;
    } else {
      PastCeilingNeverSucceeds(statusAt, k);
      assert [Fetch(k)][1..] == [];
    }
  }

  /** From the first tick: at most 122 fetches and at most one callback. */
  lemma PollingBounded(statusAt: nat -> Observation)
    ensures Fetches(WaitForStatus(statusAt, 0).events) <= 122
    ensures Callbacks(WaitForStatus(statusAt, 0).events) <= 1
  {
  }
}
