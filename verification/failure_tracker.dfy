/** The counters of the monitoring loop of `check_server` (src/main.rs):
    how many checks have run and how many of them found the server
    unresponsive, with the fixed window and alert threshold. */
module FailureTracker {
  import opened HealthCheck

  /** The loop runs while fewer than this many checks have completed. */
  const MaxChecks: nat := 10

  /** The alert fires once the failure count is strictly above this. */
  const Threshold: nat := 5

  /** `times` and `down_times` of the loop. */
  datatype Tracker = Tracker(times: nat, downTimes: nat)

  /** Before the first check: no check has run, and the failure counter
      agrees with the count over the empty sequence of checks. */
  function Init(): (t: Tracker)
    ensures t.times == 0 && t.downTimes == 0
    ensures t.downTimes == Failures([])
  {
    Tracker(0, 0)
  }

  /** One completed check: the check counter always advances by one, and the
      failure counter advances exactly on an unresponsive server and is never
      reset or lowered by a healthy one. */
  function Observe(t: Tracker, s: ServerState): (t': Tracker)
    ensures t'.times == t.times + 1
    ensures t'.downTimes == (if s == ServerUnresponsive then t.downTimes + 1 else t.downTimes)
  {
    match s
    case ServerOk => Tracker(t.times + 1, t.downTimes)
    case ServerUnresponsive => Tracker(t.times + 1, t.downTimes + 1)
  }

  /** The failure count has crossed the alert threshold. */
  predicate Alerting(t: Tracker) {
    t.downTimes > Threshold
  }

  /** A classified check keeps the counters honest: if `down_times` counts
      the unresponsive checks before the step, it counts them after it, and
      `times` grows by exactly one. */
  lemma ObserveCounts(rs: seq<Response>, t: Tracker)
    requires t.times < |rs| && t.downTimes == Failures(rs[..t.times])
    requires PingServer(rs[t.times]).Classified?
    ensures var t' := Observe(t, PingServer(rs[t.times]).state);
      t'.times == t.times + 1 && t'.downTimes == Failures(rs[..t'.times])
  {
    FailuresStep(rs, t.times);
  }

  /** The threshold is crossed by one step only when the check found the
      server unresponsive and the count before it was exactly five. */
  lemma AlertingCrossing(t: Tracker, s: ServerState)
    requires !Alerting(t) && Alerting(Observe(t, s))
    ensures s == ServerUnresponsive && t.downTimes == Threshold
  {
  }

  /** The number of responses in `rs` that a check classifies as unresponsive. */
  function Failures(rs: seq<Response>): (n: nat)
    ensures n <= |rs|
    ensures rs == [] ==> n == 0
  {
    if rs == [] then 0
    else Failures(rs[..|rs| - 1]) + (if Unresponsive(rs[|rs| - 1]) then 1 else 0)
  }

  /** Extending the checked prefix by one response adds one failure exactly
      when that response is unresponsive. */
  lemma FailuresStep(rs: seq<Response>, k: nat)
    requires k < |rs|
    ensures Failures(rs[..k + 1]) == Failures(rs[..k]) + (if Unresponsive(rs[k]) then 1 else 0)
  {
    assert rs[..k + 1][..k] == rs[..k];
  }

  /** The failure count over a longer prefix is never smaller: healthy checks
      do not reset it. */
  lemma {:induction false} FailuresMonotone(rs: seq<Response>, i: nat, j: nat)
    requires i <= j <= |rs|
    ensures Failures(rs[..i]) <= Failures(rs[..j])
    decreases j - i
  {
    if i < j {
      FailuresStep(rs, j - 1);
      FailuresMonotone(rs, i, j - 1);
    }
  }

  /** Helper: `FailuresMonotone` for every shorter prefix at once. */
  lemma FailuresPrefixBound(rs: seq<Response>, n: nat)
    requires n <= |rs|
    ensures forall k :: 0 <= k <= n ==> Failures(rs[..k]) <= Failures(rs[..n])
  {
    forall k | 0 <= k <= n
      ensures Failures(rs[..k]) <= Failures(rs[..n])
    {
      FailuresMonotone(rs, k, n);
    }
  }

  /** When every response is unresponsive, every check counts as a failure. */
  lemma {:induction false} FailuresAllUnresponsive(rs: seq<Response>)
    requires forall i :: 0 <= i < |rs| ==> Unresponsive(rs[i])
    ensures Failures(rs) == |rs|
  {
    if rs != [] {
      FailuresAllUnresponsive(rs[..|rs| - 1]);
    }
  }

  /** When no response is unresponsive, the failure count stays at zero. */
  lemma {:induction false} FailuresNoneUnresponsive(rs: seq<Response>)
    requires forall i :: 0 <= i < |rs| ==> !Unresponsive(rs[i])
    ensures Failures(rs) == 0
  {
    if rs != [] {
      FailuresNoneUnresponsive(rs[..|rs| - 1]);
    }
  }
}
