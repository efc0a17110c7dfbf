/**
  The failed-login limiter of backend/app/features/auth.py.

  `Host` and the functions on it describe what one locked call does to one client host;
  `FailedLoginLimiter` is the object itself, whose methods are proved against them.
  The lemmas speak about every sequence of calls under a clock that never runs backwards.
*/
module LoginLimiter {
  const MAX_LOGIN_FAILURES: nat := 5
  const LOGIN_FAILURE_WINDOW_SECONDS: real := 300.0

  /** What the limiter remembers about one client host. */
  datatype Host = Host(failures: seq<real>, inFlight: nat)

  const FRESH := Host([], 0)

  predicate Sorted(s: seq<real>) {
    forall i, j :: 0 <= i < j < |s| ==> s[i] <= s[j]
  }

  /** The failures that still count at `now`, picked one by one. */
  function Unexpired(s: seq<real>, now: real): (r: seq<real>)
  {
    if s == [] then []
    else (if s[0] > now - LOGIN_FAILURE_WINDOW_SECONDS then [s[0]] else []) + Unexpired(s[1..], now)
  }

  /** What the loop over the deque does: it only ever looks at the front. */
  function Prune(s: seq<real>, now: real): (r: seq<real>)
  {
    if s != [] && s[0] <= now - LOGIN_FAILURE_WINDOW_SECONDS then Prune(s[1..], now) else s
  }

  lemma {:induction false} PruneDropsAFront(s: seq<real>, now: real) returns (k: nat)
    ensures k <= |s| && Prune(s, now) == s[k..]
    ensures forall i :: 0 <= i < k ==> s[i] <= now - LOGIN_FAILURE_WINDOW_SECONDS
    ensures k < |s| ==> s[k] > now - LOGIN_FAILURE_WINDOW_SECONDS
  {
    k := 0;
    if s != [] && s[0] <= now - LOGIN_FAILURE_WINDOW_SECONDS {
      var rest := PruneDropsAFront(s[1..], now);
      k := rest + 1;
      assert s[1..][rest..] == s[k..];
    }
  }

  lemma {:induction false} AllUnexpired(s: seq<real>, now: real)
    requires forall i :: 0 <= i < |s| ==> s[i] > now - LOGIN_FAILURE_WINDOW_SECONDS
    ensures Unexpired(s, now) == s
  {
    if s != [] {
      AllUnexpired(s[1..], now);
    }
  }

  lemma {:induction false} ExpiredFront(s: seq<real>, k: nat, now: real)
    requires k <= |s|
    requires forall i :: 0 <= i < k ==> s[i] <= now - LOGIN_FAILURE_WINDOW_SECONDS
    ensures Unexpired(s, now) == Unexpired(s[k..], now)
  {
    if k == 0 {
      assert s[k..] == s;
    } else {
      ExpiredFront(s[1..], k - 1, now);
      assert s[1..][k - 1..] == s[k..];
    }
  }

  /** Looking only at the front of a sorted deque removes exactly the expired entries. */
  lemma PruneRemovesExactlyTheExpired(s: seq<real>, now: real)
    requires Sorted(s)
    ensures Prune(s, now) == Unexpired(s, now)
  {
    var k := PruneDropsAFront(s, now);
    ExpiredFront(s, k, now);
    AllUnexpired(s[k..], now);
  }

  lemma {:induction false} UnexpiredShrinks(s: seq<real>, now: real, later: real)
    requires now <= later
    ensures |Unexpired(s, later)| <= |Unexpired(s, now)|
  {
    if s != [] {
      UnexpiredShrinks(s[1..], now, later);
    }
  }

  lemma {:induction false} UnexpiredAppend(s: seq<real>, x: real, now: real)
    requires x > now - LOGIN_FAILURE_WINDOW_SECONDS
    ensures Unexpired(s + [x], now) == Unexpired(s, now) + [x]
  {
    if s != [] {
      UnexpiredAppend(s[1..], x, now);
      assert (s + [x])[1..] == s[1..] + [x];
    }
  }

  // The calls, as they act on one host.

  function TryStart(h: Host, now: real): (r: (Host, bool))
  {
    var kept := Prune(h.failures, now);
    if |kept| + h.inFlight >= MAX_LOGIN_FAILURES then (h.(failures := kept), false)
    else (Host(kept, h.inFlight + 1), true)
  }

  function FinishFailure(h: Host, now: real): (r: Host)
    requires h.inFlight > 0
  {
    Host(Prune(h.failures, now) + [now], h.inFlight - 1)
  }

  function FinishSuccess(h: Host): (r: Host)
    requires h.inFlight > 0
  {
    Host([], h.inFlight - 1)
  }

  function Cancel(h: Host): (r: Host)
    requires h.inFlight > 0
  {
    h.(inFlight := h.inFlight - 1)
  }

  /** One call on the limiter for one host, stamped with the clock reading it takes. */
  datatype Call = Start(at: real) | Failed(at: real) | Succeeded(at: real) | Cancelled(at: real)

  /**
    A host together with the last clock reading and every failure recorded since the last
    success, whether or not the limiter has since forgotten it.
  */
  datatype Run = Run(host: Host, now: real, log: seq<real>)

  function After(run: Run, call: Call): (r: Run)
  {
    if call.Start? then run.(host := TryStart(run.host, call.at).0, now := call.at)
    else if run.host.inFlight == 0 then run.(now := call.at)  // the source raises and changes nothing
    else match call
      case Failed(at) => Run(FinishFailure(run.host, at), at, run.log + [at])
      case Succeeded(at) => Run(FinishSuccess(run.host), at, [])
      case Cancelled(at) => run.(host := Cancel(run.host), now := at)
      case Start(_) => run
  }

  function AfterAll(run: Run, calls: seq<Call>): (r: Run)
    decreases |calls|
  {
    if calls == [] then run else AfterAll(After(run, calls[0]), calls[1..])
  }

  predicate Monotone(now: real, calls: seq<Call>)
    decreases |calls|
  {
    calls == [] || (now <= calls[0].at && Monotone(calls[0].at, calls[1..]))
  }

  /** How many of the starts among the calls are granted. */
  function Granted(run: Run, calls: seq<Call>): (r: nat)
    decreases |calls|
  {
    if calls == [] then 0
    else
      (if calls[0].Start? && TryStart(run.host, calls[0].at).1 then 1 else 0) + Granted(After(run, calls[0]), calls[1..])
  }

  /** How many of the other calls find an attempt to finish. */
  function Finished(run: Run, calls: seq<Call>): (r: nat)
    decreases |calls|
  {
    if calls == [] then 0
    else
      (if !calls[0].Start? && run.host.inFlight > 0 then 1 else 0) + Finished(After(run, calls[0]), calls[1..])
  }

  /**
    Every granted attempt is in flight until it is finished, and is finished once: with a failure, a
    success or neither. So no more attempts are finished than were granted.
  */
  lemma {:induction false} AttemptsAreBalanced(run: Run, calls: seq<Call>)
    ensures AfterAll(run, calls).host.inFlight + Finished(run, calls) == run.host.inFlight + Granted(run, calls)
    decreases |calls|
  {
    if calls != [] {
      AttemptsAreBalanced(After(run, calls[0]), calls[1..]);
    }
  }

  /** Five starts in a row are granted to a fresh host and, until one is finished, no sixth. */
  lemma FiveAtOnce(start: real, calls: seq<Call>)
    requires Monotone(start, calls) && forall k :: 0 <= k < |calls| ==> calls[k].Start?
    ensures Granted(Run(FRESH, start, []), calls) == if |calls| < 5 then |calls| else 5
  {
    StartsAreGranted(Run(FRESH, start, []), calls);
  }

  lemma {:induction false} StartsAreGranted(run: Run, calls: seq<Call>)
    requires run.host.failures == [] && run.host.inFlight <= 5
    requires forall k :: 0 <= k < |calls| ==> calls[k].Start?
    ensures Granted(run, calls) == if |calls| < 5 - run.host.inFlight then |calls| else 5 - run.host.inFlight
    decreases |calls|
  {
    if calls != [] {
      StartsAreGranted(After(run, calls[0]), calls[1..]);
    }
  }

  /** The log is in order, and any six successive entries span the whole window. */
  ghost predicate Spaced(log: seq<real>, now: real) {
    && Sorted(log)
    && (log != [] ==> log[|log| - 1] <= now)
    && (forall i :: 0 <= i && i + MAX_LOGIN_FAILURES < |log| ==>
          log[i + MAX_LOGIN_FAILURES] - log[i] >= LOGIN_FAILURE_WINDOW_SECONDS)
  }

  /** The deque is the tail of the log that pruning has not dropped yet. */
  ghost predicate Remembers(failures: seq<real>, log: seq<real>, now: real) {
    && |failures| <= |log|
    && failures == log[|log| - |failures|..]
    && (forall i :: 0 <= i < |log| - |failures| ==> log[i] <= now - LOGIN_FAILURE_WINDOW_SECONDS)
  }

  ghost predicate RunInvariant(run: Run) {
    && Spaced(run.log, run.now)
    && Remembers(run.host.failures, run.log, run.now)
    && |Unexpired(run.host.failures, run.now)| + run.host.inFlight <= MAX_LOGIN_FAILURES
  }

  lemma PruneStillRemembers(failures: seq<real>, log: seq<real>, now: real, later: real)
    requires Spaced(log, now) && Remembers(failures, log, now) && now <= later
    ensures Remembers(Prune(failures, later), log, later)
    ensures Sorted(failures)
  {
    var k := PruneDropsAFront(failures, later);
    var n := |log| - |failures|;
    assert failures[k..] == log[n + k..];
    forall i | 0 <= i < n + k ensures log[i] <= later - LOGIN_FAILURE_WINDOW_SECONDS {
      if i >= n { assert log[i] == failures[i - n]; }
    }
  }

  lemma PrunedAreLive(failures: seq<real>, now: real, later: real)
    requires Sorted(failures) && now <= later
    ensures Prune(failures, later) == Unexpired(failures, later) == Unexpired(Prune(failures, later), later)
    ensures |Prune(failures, later)| <= |Unexpired(failures, now)|
  {
    PruneRemovesExactlyTheExpired(failures, later);
    UnexpiredShrinks(failures, now, later);
    var k := PruneDropsAFront(failures, later);
    AllUnexpired(failures[k..], later);
  }

  lemma FailureKeepsSpacing(kept: seq<real>, log: seq<real>, now: real, at: real)
    requires Spaced(log, now) && now <= at
    requires Remembers(kept, log, at) && |kept| < MAX_LOGIN_FAILURES
    ensures Spaced(log + [at], at) && Remembers(kept + [at], log + [at], at)
  {
    // At most four recorded failures are still alive, so the fifth last has expired.
  }

  lemma TimePasses(run: Run, at: real)
    requires RunInvariant(run) && run.now <= at
    ensures RunInvariant(run.(now := at))
  {
    UnexpiredShrinks(run.host.failures, run.now, at);
  }

  lemma PruningKeepsInvariant(run: Run, at: real)
    requires RunInvariant(run) && run.now <= at
    ensures var kept := Prune(run.host.failures, at);
      RunInvariant(Run(run.host.(failures := kept), at, run.log)) && kept == Unexpired(kept, at)
  {
    PruneStillRemembers(run.host.failures, run.log, run.now, at);
    PrunedAreLive(run.host.failures, run.now, at);
  }

  lemma FailureKeepsInvariant(run: Run)
    requires RunInvariant(run) && run.host.inFlight > 0
    requires run.host.failures == Unexpired(run.host.failures, run.now)
    ensures RunInvariant(Run(Host(run.host.failures + [run.now], run.host.inFlight - 1), run.now, run.log + [run.now]))
  {
    FailureKeepsSpacing(run.host.failures, run.log, run.now, run.now);
    UnexpiredAppend(run.host.failures, run.now, run.now);
  }

  lemma CallKeepsInvariant(run: Run, call: Call)
    requires RunInvariant(run) && run.now <= call.at
    ensures RunInvariant(After(run, call))
  {
    var at := call.at;
    TimePasses(run, at);
    var pruned := Run(run.host.(failures := Prune(run.host.failures, at)), at, run.log);
    PruningKeepsInvariant(run, at);
    if call.Failed? && run.host.inFlight > 0 {
      FailureKeepsInvariant(pruned);
    }
  }

  lemma {:induction false} CallsKeepInvariant(run: Run, calls: seq<Call>)
    requires RunInvariant(run) && Monotone(run.now, calls)
    ensures RunInvariant(AfterAll(run, calls))
    decreases |calls|
  {
    if calls != [] {
      CallKeepsInvariant(run, calls[0]);
      CallsKeepInvariant(After(run, calls[0]), calls[1..]);
    }
  }

  /**
    Over every sequence of calls under a monotone clock: live failures plus attempts in
    flight never exceed five, and any six successive failures without a success between
    them span at least 300 seconds.
  */
  lemma AtMostFiveFailuresPerWindow(start: real, calls: seq<Call>)
    requires Monotone(start, calls)
    ensures var r := AfterAll(Run(FRESH, start, []), calls);
      && |Unexpired(r.host.failures, r.now)| + r.host.inFlight <= 5
      && forall i :: 0 <= i && i + 5 < |r.log| ==> r.log[i + 5] - r.log[i] >= 300.0
  {
    CallsKeepInvariant(Run(FRESH, start, []), calls);
  }

  /** A refused start is refused for cause: five live failures or attempts are on record. */
  lemma RefusedOnlyAtTheCap(run: Run, now: real)
    requires RunInvariant(run) && run.now <= now
    ensures TryStart(run.host, now).1 <==> |Unexpired(run.host.failures, now)| + run.host.inFlight < 5
  {
    PruneRemovesExactlyTheExpired(run.host.failures, now);
  }

  class FailedLoginLimiter {
    var failures: map<string, seq<real>>
    var inFlight: map<string, nat>

    constructor ()
      ensures failures == map[] && inFlight == map[]
    {
      failures, inFlight := map[], map[];
    }

    function HostOf(host: string): (h: Host)
      reads this
    {
      Host(if host in failures then failures[host] else [], if host in inFlight then inFlight[host] else 0)
    }

    /** Drops expired entries from the front of the host's deque and forgets an empty one. */
    method ActiveFailures(host: string, now: real) returns (active: seq<real>)
      modifies this`failures
      ensures active == Prune(old(HostOf(host)).failures, now)
      ensures HostOf(host) == old(HostOf(host)).(failures := active)
      ensures forall other :: other != host ==> HostOf(other) == old(HostOf(other))
    {
      if host !in failures {
        return [];
      }
      active := failures[host];
      while active != [] && active[0] <= now - LOGIN_FAILURE_WINDOW_SECONDS
        invariant Prune(active, now) == Prune(old(HostOf(host)).failures, now)
        decreases |active|
      {
        active := active[1..];
      }
      failures := if active == [] then failures - {host} else failures[host := active];
    }

    method TryStartAttempt(host: string, now: real) returns (started: bool)
      modifies this
      ensures (HostOf(host), started) == TryStart(old(HostOf(host)), now)
      ensures started <==> |Prune(old(HostOf(host)).failures, now)| + old(HostOf(host)).inFlight < 5
      ensures HostOf(host).failures == Prune(old(HostOf(host)).failures, now)
      ensures HostOf(host).inFlight == old(HostOf(host)).inFlight + if started then 1 else 0
      ensures forall other :: other != host ==> HostOf(other) == old(HostOf(other))
    {
      var active := ActiveFailures(host, now);
      var count := if host in inFlight then inFlight[host] else 0;
      if |active| + count >= MAX_LOGIN_FAILURES {
        return false;
      }
      inFlight := inFlight[host := count + 1];
      started := true;
    }

    /** False stands for the RuntimeError about an attempt that was never started. */
    method ReleaseAttempt(host: string) returns (ok: bool)
      modifies this`inFlight
      ensures ok == (old(HostOf(host)).inFlight > 0)
      ensures HostOf(host) == if ok then Cancel(old(HostOf(host))) else old(HostOf(host))
      ensures HostOf(host) == Host(old(HostOf(host)).failures, old(HostOf(host)).inFlight - if ok then 1 else 0)
      ensures forall other :: other != host ==> HostOf(other) == old(HostOf(other))
    {
      var count := if host in inFlight then inFlight[host] else 0;
      if count == 0 {
        return false;
      }
      inFlight := if count == 1 then inFlight - {host} else inFlight[host := count - 1];
      ok := true;
    }

    method RecordFailure(host: string, now: real) returns (ok: bool)
      modifies this
      ensures ok == (old(HostOf(host)).inFlight > 0)
      ensures HostOf(host) == if ok then FinishFailure(old(HostOf(host)), now) else old(HostOf(host))
      ensures ok ==> HostOf(host).failures == Prune(old(HostOf(host)).failures, now) + [now]
      ensures ok ==> HostOf(host).inFlight == old(HostOf(host)).inFlight - 1
      ensures forall other :: other != host ==> HostOf(other) == old(HostOf(other))
    {
      ok := ReleaseAttempt(host);
      if ok {
        var active := ActiveFailures(host, now);
        failures := failures[host := active + [now]];
      }
    }

    method RecordSuccess(host: string) returns (ok: bool)
      modifies this
      ensures ok == (old(HostOf(host)).inFlight > 0)
      ensures HostOf(host) == if ok then FinishSuccess(old(HostOf(host))) else old(HostOf(host))
      ensures ok ==> HostOf(host) == Host([], old(HostOf(host)).inFlight - 1)
      ensures forall other :: other != host ==> HostOf(other) == old(HostOf(other))
    {
      ok := ReleaseAttempt(host);
      if ok {
        failures := failures - {host};
      }
    }

    method CancelAttempt(host: string) returns (ok: bool)
      modifies this`inFlight
      ensures ok == (old(HostOf(host)).inFlight > 0)
      ensures HostOf(host) == if ok then Cancel(old(HostOf(host))) else old(HostOf(host))
      ensures HostOf(host) == Host(old(HostOf(host)).failures, old(HostOf(host)).inFlight - if ok then 1 else 0)
      ensures forall other :: other != host ==> HostOf(other) == old(HostOf(other))
    {
      ok := ReleaseAttempt(host);
    }
  }
}
