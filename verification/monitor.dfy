/** The monitoring loop of one server (`check_server` in src/main.rs): up to
    ten checks, a running count of unresponsive checks, and one alert batch
    once that count exceeds five.

    The network is an input: `probes[i]` is the response the i-th check
    receives. The 2-second pause between checks and the logging are not
    modelled; they do not influence any decision. */
module Monitor {
  import opened Wrappers
  import opened HealthCheck
  import opened FailureTracker
  import opened Notifier

  /** A monitored server. Its URL is where the probes are sent. */
  datatype ServerInfo = ServerInfo(targetUrl: string, serverName: string)

  /** The key of the recipient list in the parsed mail configuration. */
  const EmailsKey: string := "emails"

  /** Why the checking loop stopped: the window of checks ran out, the alert
      threshold was crossed, or a check returned an error or panicked. */
  datatype Stop = WindowEnded | AlertFired | BodyReadError | StatusPanic(status: StatusCode)

  /** The counters when the loop stopped, and why it stopped. */
  datatype Watched = Watched(tracker: Tracker, stop: Stop)

  /** The conditions that abort the process. */
  datatype Panic = UnexpectedResponse(status: StatusCode) | MissingEmailsKey

  /** The errors `check_server` returns to its caller. */
  datatype MonitorError = BodyRead | Send(cause: SendError)

  /** How a monitor ended: normally, with an error, or with a panic. */
  datatype Exit = Completed | Failed(error: MonitorError) | Panicked(panic: Panic)

  /** The outcome of monitoring one server: completed checks, unresponsive
      checks among them, whether the alert fired, the alert messages handed
      to the relay, and how the monitor ended. */
  datatype Report = Report(times: nat, downTimes: nat, alerted: bool, attempts: seq<Attempt>, exit: Exit)

  /** The checking loop from counters `t` on. */
  function Watch(probes: seq<Response>, t: Tracker): (w: Watched)
    requires t.times <= MaxChecks <= |probes|
    ensures t.times <= w.tracker.times <= MaxChecks
    ensures t.downTimes <= w.tracker.downTimes
    decreases MaxChecks - t.times
  {
    if t.times == MaxChecks then Watched(t, WindowEnded)
    else
      match PingServer(probes[t.times])
      case BodyReadFailed => Watched(t, BodyReadError)
      case UnexpectedStatus(c) => Watched(t, StatusPanic(c))
      case Classified(s) =>
        var t' := Observe(t, s);
        if Alerting(t') then Watched(t', AlertFired) else Watch(probes, t')
  }

  /** Counters the loop can be at: every completed check was classified, the
      failure counter counts the unresponsive ones, and it has not yet
      crossed the threshold. */
  ghost predicate Reached(probes: seq<Response>, t: Tracker) {
    && t.times <= MaxChecks <= |probes|
    && t.downTimes == Failures(probes[..t.times])
    && t.downTimes <= Threshold
    && forall i :: 0 <= i < t.times ==> PingServer(probes[i]).Classified?
  }

  /** From reachable counters, every check the loop completes is classified
      and the failure counter counts the unresponsive ones. */
  lemma {:induction false} WatchCounts(probes: seq<Response>, t: Tracker)
    requires Reached(probes, t)
    ensures var w := Watch(probes, t);
      && w.tracker.downTimes == Failures(probes[..w.tracker.times])
      && forall i :: 0 <= i < w.tracker.times ==> PingServer(probes[i]).Classified?
    decreases MaxChecks - t.times
  {
    if t.times < MaxChecks && PingServer(probes[t.times]).Classified? {
      var t' := Observe(t, PingServer(probes[t.times]).state);
      FailuresStep(probes, t.times);
      if !Alerting(t') {
        WatchCounts(probes, t');
      }
    }
  }

  /** From reachable counters, the loop stops at the threshold exactly when
      the failure count exceeds five, and then at the check that made it
      do so: the sixth unresponsive one. */
  lemma {:induction false} WatchAlert(probes: seq<Response>, t: Tracker)
    requires Reached(probes, t)
    ensures var w := Watch(probes, t); var n := w.tracker.times;
      && (w.stop == AlertFired <==> w.tracker.downTimes > Threshold)
      && (w.stop == AlertFired ==>
            0 < n && w.tracker.downTimes == Threshold + 1
            && Failures(probes[..n - 1]) == Threshold && Unresponsive(probes[n - 1]))
    decreases MaxChecks - t.times
  {
    if t.times < MaxChecks && PingServer(probes[t.times]).Classified? {
      var t' := Observe(t, PingServer(probes[t.times]).state);
      if !Alerting(t') {
        FailuresStep(probes, t.times);
        WatchAlert(probes, t');
      }
    }
  }

  /** From reachable counters, a loop that does not alert stops either after
      the last check of the window or at the check that returned an error or
      panicked. */
  lemma {:induction false} WatchOtherStops(probes: seq<Response>, t: Tracker)
    requires Reached(probes, t)
    ensures var w := Watch(probes, t); var n := w.tracker.times;
      && (w.stop == WindowEnded ==> n == MaxChecks)
      && (w.stop == BodyReadError ==> n < MaxChecks && PingServer(probes[n]) == BodyReadFailed)
      && (w.stop.StatusPanic? ==> n < MaxChecks && PingServer(probes[n]) == UnexpectedStatus(w.stop.status))
    decreases MaxChecks - t.times
  {
    if t.times < MaxChecks && PingServer(probes[t.times]).Classified? {
      var t' := Observe(t, PingServer(probes[t.times]).state);
      if !Alerting(t') {
        FailuresStep(probes, t.times);
        WatchOtherStops(probes, t');
      }
    }
  }

  /** The three facts about the loop, from its initial counters. */
  lemma WatchSpec(probes: seq<Response>)
    requires MaxChecks <= |probes|
    ensures var w := Watch(probes, Init()); var n := w.tracker.times;
      && w.tracker.downTimes == Failures(probes[..n])
      && (forall i :: 0 <= i < n ==> PingServer(probes[i]).Classified?)
      && (w.stop == AlertFired <==> w.tracker.downTimes > Threshold)
      && (w.stop == AlertFired ==>
            0 < n && w.tracker.downTimes == Threshold + 1
            && Failures(probes[..n - 1]) == Threshold && Unresponsive(probes[n - 1]))
      && (w.stop == WindowEnded ==> n == MaxChecks)
      && (w.stop == BodyReadError ==> n < MaxChecks && PingServer(probes[n]) == BodyReadFailed)
      && (w.stop.StatusPanic? ==> n < MaxChecks && PingServer(probes[n]) == UnexpectedStatus(w.stop.status))
  {
    assert probes[..0] == [];
    assert Reached(probes, Init());
    WatchCounts(probes, Init());
    WatchAlert(probes, Init());
    WatchOtherStops(probes, Init());
  }

  /** What happens once the checking loop has stopped: only a crossed
      threshold sends mail, and a missing recipient list panics. */
  function Conclude(server: ServerInfo, w: Watched, emailList: map<string, seq<string>>,
                    sender: string, env: MailEnv): (r: Report)
    ensures r.times == w.tracker.times && r.downTimes == w.tracker.downTimes
    ensures r.alerted <==> w.stop == AlertFired
    ensures !r.alerted ==> r.attempts == []
    ensures r.alerted && EmailsKey in emailList ==> |r.attempts| <= |emailList[EmailsKey]|
  {
    var t := w.tracker;
    match w.stop
    case WindowEnded => Report(t.times, t.downTimes, false, [], Completed)
    case BodyReadError => Report(t.times, t.downTimes, false, [], Failed(BodyRead))
    case StatusPanic(c) => Report(t.times, t.downTimes, false, [], Panicked(UnexpectedResponse(c)))
    case AlertFired =>
      if EmailsKey !in emailList then Report(t.times, t.downTimes, true, [], Panicked(MissingEmailsKey))
      else
        var b := SendAlerts(emailList[EmailsKey], sender, server.serverName, env);
        Report(t.times, t.downTimes, true, b.attempts,
               if b.error.None? then Completed else Failed(Send(b.error.value)))
  }

  /** Monitors one server: runs the checks, and when the alert fires sends
      one alert per configured recipient. */
  function RunMonitor(server: ServerInfo, probes: seq<Response>, emailList: map<string, seq<string>>,
                   sender: string, env: MailEnv): (r: Report)
    requires MaxChecks <= |probes|
    ensures r.times <= MaxChecks
    ensures !r.alerted ==> r.attempts == []
    ensures r.alerted && EmailsKey in emailList ==> |r.attempts| <= |emailList[EmailsKey]|
  {
    Conclude(server, Watch(probes, Init()), emailList, sender, env)
  }

  /** The report carries the loop's final counters, and the alert flag says
      whether the loop stopped at the threshold. */
  lemma MonitorFollowsWatch(server: ServerInfo, probes: seq<Response>, emailList: map<string, seq<string>>,
                            sender: string, env: MailEnv)
    requires MaxChecks <= |probes|
    ensures var r := RunMonitor(server, probes, emailList, sender, env);
            var w := Watch(probes, Init());
      && r.times == w.tracker.times
      && r.downTimes == w.tracker.downTimes
      && (r.alerted <==> w.stop == AlertFired)
      && (r.exit == Failed(BodyRead) <==> w.stop == BodyReadError)
      && (r.exit.Panicked? && r.exit.panic.UnexpectedResponse? <==> w.stop.StatusPanic?)
      && (w.stop.StatusPanic? ==> r.exit == Panicked(UnexpectedResponse(w.stop.status)))
      && (w.stop == WindowEnded ==> r.exit == Completed && r.attempts == [])
  {
  }

  /** The `for` loop over the recipients: one alert per recipient, in list
      order, stopping at the first send that returns an error. */
  method SendAlertBatch(recipients: seq<string>, sender: string, serverName: string, env: MailEnv)
    returns (b: Batch)
    ensures b == SendAlerts(recipients, sender, serverName, env)
    ensures |b.attempts| <= |recipients|
  {
    var attempts: seq<Attempt> := [];
    var i := 0;
    while i < |recipients|
      invariant i <= |recipients|
      invariant var rest := SendFrom(recipients, i, sender, serverName, env);
        SendAlerts(recipients, sender, serverName, env) == Batch(attempts + rest.attempts, rest.error)
    {
      var mail := SetBody(NewMail(sender, recipients[i]), serverName);
      match SendEmailSmtp(mail, env, env.delivers(i)) {
        case Err(e) =>
          return Batch(attempts, Some(e));
        case Ok(a) =>
          assert attempts + ([a] + SendFrom(recipients, i + 1, sender, serverName, env).attempts)
              == (attempts + [a]) + SendFrom(recipients, i + 1, sender, serverName, env).attempts;
          attempts := attempts + [a];
      }
      i := i + 1;
    }
    assert attempts + [] == attempts;
    return Batch(attempts, None);
  }

  /** `check_server` as written: the checking loop over mutable counters,
      then, once the threshold is crossed, one alert per recipient, stopping
      at the first send that returns an error. It computes exactly the
      report of `RunMonitor`. */
  method CheckServer(server: ServerInfo, probes: seq<Response>, emailList: map<string, seq<string>>,
                     sender: string, env: MailEnv) returns (r: Report)
    requires MaxChecks <= |probes|
    ensures r == RunMonitor(server, probes, emailList, sender, env)
    ensures r.times <= MaxChecks && r.downTimes == Failures(probes[..r.times])
    ensures r.alerted <==> r.downTimes > Threshold
  {
    MonitorCounts(server, probes, emailList, sender, env);
    AlertFiresAtFirstCrossing(server, probes, emailList, sender, env);
    var times: nat := 0;
    var downTimes: nat := 0;
    while times < MaxChecks
      invariant times <= MaxChecks
      invariant Watch(probes, Tracker(times, downTimes)) == Watch(probes, Init())
      decreases MaxChecks - times
    {
      ghost var before := Tracker(times, downTimes);
      match PingServer(probes[times]) {
        case BodyReadFailed =>
          assert Watch(probes, Init()) == Watched(before, BodyReadError);
          return Report(times, downTimes, false, [], Failed(BodyRead));
        case UnexpectedStatus(c) =>
          assert Watch(probes, Init()) == Watched(before, StatusPanic(c));
          return Report(times, downTimes, false, [], Panicked(UnexpectedResponse(c)));
        case Classified(ServerOk) =>
        case Classified(ServerUnresponsive) =>
          downTimes := downTimes + 1;
      }
      times := times + 1;
      assert Tracker(times, downTimes) == Observe(before, PingServer(probes[times - 1]).state);
      if downTimes > Threshold {
        assert Watch(probes, Init()) == Watched(Tracker(times, downTimes), AlertFired);
        if EmailsKey !in emailList {
          return Report(times, downTimes, true, [], Panicked(MissingEmailsKey));
        }
        var b := SendAlertBatch(emailList[EmailsKey], sender, server.serverName, env);
        return Report(times, downTimes, true, b.attempts,
                      if b.error.None? then Completed else Failed(Send(b.error.value)));
      }
    }
    assert Watch(probes, Init()) == Watched(Tracker(times, downTimes), WindowEnded);
    return Report(times, downTimes, false, [], Completed);
  }

  /** The monitor performs at most ten checks, each completed check was
      classified, and the failure counter equals the number of unresponsive
      checks among them. */
  lemma MonitorCounts(server: ServerInfo, probes: seq<Response>, emailList: map<string, seq<string>>,
                      sender: string, env: MailEnv)
    requires MaxChecks <= |probes|
    ensures var r := RunMonitor(server, probes, emailList, sender, env);
      && r.times <= MaxChecks
      && r.downTimes == Failures(probes[..r.times])
      && r.downTimes <= r.times
      && forall i :: 0 <= i < r.times ==> PingServer(probes[i]).Classified?
  {
    WatchSpec(probes);
    MonitorFollowsWatch(server, probes, emailList, sender, env);
  }

  /** The alert fires exactly when the failure count exceeds five, and it
      fires at the first check that makes it do so (the sixth unresponsive
      one): at every earlier point the count was at most five, and no check
      follows it. */
  lemma AlertFiresAtFirstCrossing(server: ServerInfo, probes: seq<Response>, emailList: map<string, seq<string>>,
                                  sender: string, env: MailEnv)
    requires MaxChecks <= |probes|
    ensures var r := RunMonitor(server, probes, emailList, sender, env);
      && (r.alerted <==> r.downTimes > Threshold)
      && (r.alerted ==>
            && r.downTimes == Threshold + 1
            && Unresponsive(probes[r.times - 1])
            && forall k :: 0 <= k < r.times ==> Failures(probes[..k]) <= Threshold)
  {
    var r := RunMonitor(server, probes, emailList, sender, env);
    WatchSpec(probes);
    MonitorFollowsWatch(server, probes, emailList, sender, env);
    if r.alerted {
      FailuresPrefixBound(probes, r.times - 1);
    }
  }

  /** A window of ten classified checks with at most five unresponsive ones
      runs to the end without an alert and without any mail. */
  lemma NoAlertWithinThreshold(server: ServerInfo, probes: seq<Response>, emailList: map<string, seq<string>>,
                               sender: string, env: MailEnv)
    requires MaxChecks <= |probes|
    requires forall i :: 0 <= i < MaxChecks ==> PingServer(probes[i]).Classified?
    requires Failures(probes[..MaxChecks]) <= Threshold
    ensures var r := RunMonitor(server, probes, emailList, sender, env);
      && r.times == MaxChecks
      && !r.alerted
      && r.attempts == []
      && r.exit == Completed
  {
    var r := RunMonitor(server, probes, emailList, sender, env);
    WatchSpec(probes);
    MonitorFollowsWatch(server, probes, emailList, sender, env);
    if r.alerted {
      FailuresMonotone(probes, r.times, MaxChecks);
    }
  }

  /** A window of ten classified checks with more than five unresponsive
      ones always raises the alert, within the window. */
  lemma AlertBeyondThreshold(server: ServerInfo, probes: seq<Response>, emailList: map<string, seq<string>>,
                             sender: string, env: MailEnv)
    requires MaxChecks <= |probes|
    requires forall i :: 0 <= i < MaxChecks ==> PingServer(probes[i]).Classified?
    requires Failures(probes[..MaxChecks]) > Threshold
    ensures var r := RunMonitor(server, probes, emailList, sender, env);
      r.alerted && r.times <= MaxChecks
  {
    WatchSpec(probes);
    MonitorFollowsWatch(server, probes, emailList, sender, env);
  }

  /** A check that returns an error or panics ends the monitor before the
      window is over and before any alert, and only such a check does. */
  lemma ProbeFailureStops(server: ServerInfo, probes: seq<Response>, emailList: map<string, seq<string>>,
                          sender: string, env: MailEnv)
    requires MaxChecks <= |probes|
    ensures var r := RunMonitor(server, probes, emailList, sender, env);
      && (r.exit == Failed(BodyRead) <==>
            !r.alerted && r.times < MaxChecks && PingServer(probes[r.times]) == BodyReadFailed)
      && (r.exit.Panicked? && r.exit.panic.UnexpectedResponse? <==>
            !r.alerted && r.times < MaxChecks && PingServer(probes[r.times]).UnexpectedStatus?)
      && (r.exit.Panicked? && r.exit.panic.UnexpectedResponse? ==>
            PingServer(probes[r.times]) == UnexpectedStatus(r.exit.panic.status))
  {
    WatchSpec(probes);
    MonitorFollowsWatch(server, probes, emailList, sender, env);
  }

  /** When the alert fires: a missing recipient list panics; otherwise the
      j-th message goes to the j-th recipient with the alert subject and the
      server's alert body, and the monitor completes exactly when every
      recipient's message was sendable, else it returns the error of the
      first one that was not. */
  lemma AlertBatchContents(server: ServerInfo, probes: seq<Response>, emailList: map<string, seq<string>>,
                           sender: string, env: MailEnv)
    requires MaxChecks <= |probes|
    ensures var r := RunMonitor(server, probes, emailList, sender, env);
      && (r.alerted ==> (r.exit == Panicked(MissingEmailsKey) <==> EmailsKey !in emailList))
      && (r.alerted && EmailsKey in emailList ==>
            var recipients := emailList[EmailsKey];
            && (forall j :: 0 <= j < |r.attempts| ==>
                  r.attempts[j].mail == Mail(sender, recipients[j], Subject, AlertBody(server.serverName)))
            && (r.exit == Completed <==> |r.attempts| == |recipients|)
            && (r.exit == Completed <==>
                  forall j :: 0 <= j < |recipients| ==> Sendable(AlertMail(sender, recipients[j], server.serverName), env))
            && (r.exit != Completed ==>
                  r.exit.Failed? && r.exit.error.Send?
                  && !Sendable(AlertMail(sender, recipients[|r.attempts|], server.serverName), env)))
  {
    var r := RunMonitor(server, probes, emailList, sender, env);
    if r.alerted && EmailsKey in emailList {
      SendAlertsSpec(emailList[EmailsKey], sender, server.serverName, env);
      SendAlertsCompletes(emailList[EmailsKey], sender, server.serverName, env);
    }
  }

  /** Whether the relay accepts or rejects each message changes nothing but
      the recorded verdicts: the same checks run, the same recipients are
      attempted with the same messages, and the monitor ends the same way. */
  lemma RelayVerdictsDoNotMatter(server: ServerInfo, probes: seq<Response>, emailList: map<string, seq<string>>,
                                 sender: string, env: MailEnv, verdicts: nat -> bool)
    requires MaxChecks <= |probes|
    ensures var r1 := RunMonitor(server, probes, emailList, sender, env);
            var r2 := RunMonitor(server, probes, emailList, sender, env.(delivers := verdicts));
            && r1.times == r2.times && r1.alerted == r2.alerted && r1.exit == r2.exit
            && |r1.attempts| == |r2.attempts|
            && forall j :: 0 <= j < |r1.attempts| ==> r1.attempts[j].mail == r2.attempts[j].mail
  {
    if EmailsKey in emailList {
      DeliveryDoesNotStopBatch(emailList[EmailsKey], 0, sender, server.serverName, env, verdicts);
    }
  }

  /** A server that never answers: the alert fires at the sixth check, no
      further check runs, and with a recipient list whose messages are all
      sendable one alert goes to every recipient. */
  lemma NeverRespondingServer(server: ServerInfo, probes: seq<Response>, emailList: map<string, seq<string>>,
                              sender: string, env: MailEnv)
    requires MaxChecks <= |probes|
    requires forall i :: 0 <= i < |probes| ==> Unresponsive(probes[i])
    ensures var r := RunMonitor(server, probes, emailList, sender, env);
      && r.times == Threshold + 1
      && r.alerted
      && (EmailsKey in emailList
          && (forall j :: 0 <= j < |emailList[EmailsKey]| ==>
                Sendable(AlertMail(sender, emailList[EmailsKey][j], server.serverName), env))
          ==> r.exit == Completed && |r.attempts| == |emailList[EmailsKey]|)
  {
    var r := RunMonitor(server, probes, emailList, sender, env);
    FailuresAllUnresponsive(probes[..MaxChecks]);
    AlertBeyondThreshold(server, probes, emailList, sender, env);
    MonitorCounts(server, probes, emailList, sender, env);
    AlertFiresAtFirstCrossing(server, probes, emailList, sender, env);
    FailuresAllUnresponsive(probes[..r.times]);
    AlertBatchContents(server, probes, emailList, sender, env);
  }

  /** A server that always answers 200: all ten checks run, no alert fires
      and no mail is composed. */
  lemma AlwaysHealthyServer(server: ServerInfo, probes: seq<Response>, emailList: map<string, seq<string>>,
                            sender: string, env: MailEnv)
    requires MaxChecks <= |probes|
    requires forall i :: 0 <= i < |probes| ==> PingServer(probes[i]) == Classified(ServerOk)
    ensures var r := RunMonitor(server, probes, emailList, sender, env);
      && r.times == MaxChecks
      && r.downTimes == 0
      && !r.alerted
      && r.attempts == []
      && r.exit == Completed
  {
    FailuresNoneUnresponsive(probes[..MaxChecks]);
    NoAlertWithinThreshold(server, probes, emailList, sender, env);
    MonitorCounts(server, probes, emailList, sender, env);
  }
}
