/**
 * The status poller: `call_until_true` (anti_affinity.py:405-413), a
 * deadline loop with a fixed sleep, and `_check_server_status`
 * (anti_affinity.py:351-361), which polls a server for ACTIVE for 60
 * seconds at 3-second intervals.
 *
 * Wall-clock time is an integer clock. The reading taken before the k-th
 * call of `func` is `ClockAt(start, sleepFor, lag, k)`: each round of
 * "call, sleep, read the clock" advances it by the sleep plus a lag the
 * environment chooses (the time the call itself took, and any oversleep).
 */
module Poller {
  import opened Cloud
  import opened Classify

  /** The poll of `_check_server_status`: 60 seconds, every 3 seconds. */
  const POLL_DURATION: int := 60
  const POLL_INTERVAL: nat := 3

  /** What one call of the polled function does: returns true, returns false, or raises. */
  datatype Answer = Yes | No | Raised

  /** How `call_until_true` ends: it returns a boolean, or the exception of `func` escapes. */
  datatype Polled = Returned(ok: bool) | Threw

  /** The clock reading taken before the k-th call (the first reading is `start`). */
  function ClockAt(start: int, sleepFor: nat, lag: nat -> nat, k: nat): int {
    if k == 0 then start else ClockAt(start, sleepFor, lag, k - 1) + sleepFor + lag(k - 1)
  }

  /** Consecutive readings are at least `sleepFor` apart, so the clock never goes back. */
  lemma {:induction false} ClockAdvances(start: int, sleepFor: nat, lag: nat -> nat, j: nat, k: nat)
    requires j <= k
    ensures ClockAt(start, sleepFor, lag, j) <= ClockAt(start, sleepFor, lag, k)
    ensures j < k ==> ClockAt(start, sleepFor, lag, j) + sleepFor <= ClockAt(start, sleepFor, lag, k)
    decreases k
  {
    if j < k {
      ClockAdvances(start, sleepFor, lag, j, k - 1);
    }
  }

  /**
   * The loop of `call_until_true` from the k-th call on, as a recursive
   * definition: the outcome and the number of calls made in all.
   */
  function Run(probe: nat -> Answer, start: int, sleepFor: nat, lag: nat -> nat, deadline: int, k: nat): (Polled, nat)
    requires sleepFor > 0
    decreases deadline - ClockAt(start, sleepFor, lag, k)
  {
    if ClockAt(start, sleepFor, lag, k) >= deadline then (Returned(false), k)
    else match probe(k)
      case Yes => (Returned(true), k + 1)
      case Raised => (Threw, k + 1)
      case No => Run(probe, start, sleepFor, lag, deadline, k + 1)
  }

  /** The n-th call is made before the deadline and returns true, every call from m before it returned false. */
  ghost predicate FirstYesAt(probe: nat -> Answer, start: int, sleepFor: nat, lag: nat -> nat, deadline: int, m: nat, n: nat) {
    && m <= n
    && ClockAt(start, sleepFor, lag, n) < deadline
    && probe(n) == Yes
    && forall j :: m <= j < n ==> probe(j) == No
  }

  ghost predicate EventuallyYes(probe: nat -> Answer, start: int, sleepFor: nat, lag: nat -> nat, deadline: int, m: nat) {
    exists n :: FirstYesAt(probe, start, sleepFor, lag, deadline, m, n)
  }

  /** The poll returns true exactly when a call made before the deadline returns true before any call raises. */
  lemma {:induction false} RunTrueIff(probe: nat -> Answer, start: int, sleepFor: nat, lag: nat -> nat, deadline: int, m: nat)
    requires sleepFor > 0
    ensures Run(probe, start, sleepFor, lag, deadline, m).0 == Returned(true)
        <==> EventuallyYes(probe, start, sleepFor, lag, deadline, m)
    decreases deadline - ClockAt(start, sleepFor, lag, m)
  {
    if ClockAt(start, sleepFor, lag, m) >= deadline {
      if EventuallyYes(probe, start, sleepFor, lag, deadline, m) {
        var n :| FirstYesAt(probe, start, sleepFor, lag, deadline, m, n);
        ClockAdvances(start, sleepFor, lag, m, n);
      }
    } else if probe(m) == Yes {
      assert FirstYesAt(probe, start, sleepFor, lag, deadline, m, m);
    } else if probe(m) == Raised {
    } else {
      RunTrueIff(probe, start, sleepFor, lag, deadline, m + 1);
      if EventuallyYes(probe, start, sleepFor, lag, deadline, m) {
        var n :| FirstYesAt(probe, start, sleepFor, lag, deadline, m, n);
        assert FirstYesAt(probe, start, sleepFor, lag, deadline, m + 1, n);
      }
      if EventuallyYes(probe, start, sleepFor, lag, deadline, m + 1) {
        var n :| FirstYesAt(probe, start, sleepFor, lag, deadline, m + 1, n);
        assert FirstYesAt(probe, start, sleepFor, lag, deadline, m, n);
      }
    }
  }

  /**
   * How a poll ends: every call is made before the deadline, all but the
   * last returned false, a false result comes only once the clock has
   * reached the deadline, and a true result or an exception comes from the
   * last call.
   */
  lemma {:induction false} RunShape(probe: nat -> Answer, start: int, sleepFor: nat, lag: nat -> nat, deadline: int, m: nat)
    requires sleepFor > 0
    ensures var (r, n) := Run(probe, start, sleepFor, lag, deadline, m);
      && m <= n
      && (forall j :: m <= j < n ==> ClockAt(start, sleepFor, lag, j) < deadline)
      && (r == Returned(false) ==>
            deadline <= ClockAt(start, sleepFor, lag, n) && forall j :: m <= j < n ==> probe(j) == No)
      && (r != Returned(false) ==>
            m < n && forall j :: m <= j < n - 1 ==> probe(j) == No)
      && (r == Returned(true) ==> probe(n - 1) == Yes)
      && (r == Threw ==> probe(n - 1) == Raised)
    decreases deadline - ClockAt(start, sleepFor, lag, m)
  {
    if ClockAt(start, sleepFor, lag, m) < deadline && probe(m) == No {
      RunShape(probe, start, sleepFor, lag, deadline, m + 1);
    }
  }

  /** `call_until_true(func, duration, sleep_for)`, the k-th call of `func` answering `probe(k)`. */
  method CallUntilTrue(probe: nat -> Answer, lag: nat -> nat, start: int, duration: int, sleepFor: nat)
    returns (r: Polled, calls: nat)
    requires sleepFor > 0
    ensures (r, calls) == Run(probe, start, sleepFor, lag, start + duration, 0)
    ensures forall k :: 0 <= k < calls ==> ClockAt(start, sleepFor, lag, k) < start + duration
    ensures r == Returned(false) ==> start + duration <= ClockAt(start, sleepFor, lag, calls)
    ensures r == Returned(true) ==> 0 < calls && probe(calls - 1) == Yes
  {
    var now := start;
    var timeout := now + duration;
    calls := 0;
    while now < timeout
      invariant now == ClockAt(start, sleepFor, lag, calls)
      invariant forall k :: 0 <= k < calls ==> ClockAt(start, sleepFor, lag, k) < timeout
      invariant Run(probe, start, sleepFor, lag, timeout, calls) == Run(probe, start, sleepFor, lag, timeout, 0)
      decreases timeout - now
    {
      var answer := probe(calls);
      calls := calls + 1;
      if answer == Yes {
        return Returned(true), calls;
      } else if answer == Raised {
        return Threw, calls;
      }
      now := now + sleepFor + lag(calls - 1);
    }
    r := Returned(false);
  }

  /** `inst.status == "ACTIVE"`, where `None` stands for a `servers.get` that raised. */
  function StatusProbe(status: Option<string>): Answer {
    match status
    case None => Raised
    case Some(s) => if s == "ACTIVE" then Yes else No
  }

  /** The answers of the successive `check()` calls, given the statuses `servers.get` reports. */
  function Probes(status: nat -> Option<string>): nat -> Answer {
    (k: nat) => StatusProbe(status(k))
  }

  /**
   * `_check_server_status(shell, server)`: `None` when a status fetch
   * raised; on a timeout the fault is read from the server object handed
   * in, the one `servers.create` returned, not from a fetched copy.
   */
  method CheckServerStatus(server: Server, status: nat -> Option<string>, lag: nat -> nat, start: int)
    returns (resp: Option<StatusResponse>)
    ensures resp.Some? && resp.value.active <==>
      EventuallyYes(Probes(status), start, POLL_INTERVAL, lag, start + POLL_DURATION, 0)
    ensures resp.Some? && resp.value.active ==> resp.value.fault == NoFault
    ensures resp.Some? && !resp.value.active ==> resp.value.fault == server.fault
    ensures resp.Some? && !resp.value.active ==>
      exists n: nat ::
        && start + POLL_DURATION <= ClockAt(start, POLL_INTERVAL, lag, n)
        && forall j :: 0 <= j < n ==> status(j).Some? && status(j).value != "ACTIVE"
    ensures resp.None? ==>
      exists n: nat :: ClockAt(start, POLL_INTERVAL, lag, n) < start + POLL_DURATION && status(n).None?
    // the response is what the poll's outcome makes of it
    ensures Run(Probes(status), start, POLL_INTERVAL, lag, start + POLL_DURATION, 0).0 == Threw ==> resp.None?
    ensures Run(Probes(status), start, POLL_INTERVAL, lag, start + POLL_DURATION, 0).0 == Returned(true) ==>
      resp == Some(StatusResponse(true, NoFault))
    ensures Run(Probes(status), start, POLL_INTERVAL, lag, start + POLL_DURATION, 0).0 == Returned(false) ==>
      resp == Some(StatusResponse(false, server.fault))
  {
    var outcome, calls := CallUntilTrue(Probes(status), lag, start, POLL_DURATION, POLL_INTERVAL);
    RunTrueIff(Probes(status), start, POLL_INTERVAL, lag, start + POLL_DURATION, 0);
    RunShape(Probes(status), start, POLL_INTERVAL, lag, start + POLL_DURATION, 0);
    if outcome == Threw {
      resp := None;
      assert Probes(status)(calls - 1) == Raised;
    } else if outcome.ok {
      resp := Some(StatusResponse(true, NoFault));
    } else {
      resp := Some(StatusResponse(false, server.fault));
      forall j | 0 <= j < calls
        ensures status(j).Some? && status(j).value != "ACTIVE"
      {
        assert Probes(status)(j) == No;
      }
    }
  }
}
