# rto_pinger monitor, modelled in Dafny

`rto_pinger` watches a list of servers. For each server it runs one
monitor: up to ten HTTP health checks, two seconds apart; it counts the
checks that find the server unresponsive, and as soon as that count
exceeds five it e-mails an alert to every address in the configured
`"emails"` list and stops monitoring that server.

This project models one such monitor (`check_server` in `src/main.rs`)
together with the status classification it relies on (`ping_server`) and
the alert mail it composes (`Mail::new`, `Mail::set_body`,
`Mail::send_email_smtp`). Modules:

- `Wrappers` (`wrappers.dfy`): `Option` and `Result`.
- `HealthCheck` (`health_check.dfy`): the response of one check (`Response`:
  a reply with a status code, or a transport error) and its classification
  `PingServer` into `ServerOk`, `ServerUnresponsive`, the error returned when
  a 200 body cannot be read, or the panic on any other status code.
- `FailureTracker` (`failure_tracker.dfy`): the loop counters `times` and
  `down_times` (`Tracker`), the window of 10 checks and the threshold of 5,
  one step of the counters (`Observe`), and `Failures`, the number of
  unresponsive responses in a sequence, which is the independent
  definition the counters are proved against.
- `Notifier` (`notifier.dfy`): the `Mail` record, the fixed subject and body
  template, the body's inverse `ServerNameOf`, one send
  (`SendEmailSmtp`) and the alert batch over the recipient list
  (`SendAlerts`).
- `Monitor` (`monitor.dfy`): the checking loop as a recursive function
  (`Watch`), the whole monitor as a function (`RunMonitor`), the loop as
  written, with mutable counters (`CheckServer`, `SendAlertBatch`), proved
  equal to it, and the lemmas about when checks stop and alerts fire.

Inputs that stand for the outside world:

- `probes: seq<Response>`: `probes[i]` is what the i-th HTTP GET returned.
  At least ten are supplied, so every check the window can make has an
  answer.
- `emailList: map<string, seq<string>>`: the parsed recipient
  configuration.
- `sender`: the `SMTP_USER` address that `Mail::new` puts in `from`.
- `MailEnv`: the mail library's and relay's decisions: which strings parse
  as addresses, which messages build, and whether the relay accepted the
  n-th message of the batch.

A `Report` records the completed checks (`times`), the unresponsive ones
among them (`downTimes`), whether the alert fired, the messages handed to
the relay in order, and how the monitor ended: `Completed`, `Failed` (an
error returned by `check_server`) or `Panicked`. When a check ends the
monitor with an error or a panic, `times` counts the checks completed
before it, as the source's counter does.

Behaviours of `src/main.rs` the model keeps as they are:

- The subject is `"Control Servidores RTO"` and the body is
  `"Servidor <name> potencialmente apagado revisar."`.
- A status code other than 200 and 408 panics.
- A sender or recipient address that does not parse, or a message that
  does not build, is an error that `?` propagates: the remaining
  recipients are not attempted and the monitor ends with that error. Only
  a message the relay rejects is logged and skipped.
- A 200 reply whose body cannot be read is an error that `?` propagates
  out of the monitor.

## Model

| member | source | states |
|---|---|---|
| HealthCheck.PingServer | src/main.rs:121-135 | 200 with a readable body is `ServerOk`; 408 and every transport error are `ServerUnresponsive`; 200 with an unreadable body is an error; every other status panics, carrying that status |
| FailureTracker.Init | src/main.rs:153-154 | the loop starts with no check done and a failure counter equal to the count over no checks |
| FailureTracker.ObserveCounts | src/main.rs:156-166 | one classified check adds exactly one to `times`, and `down_times` still equals the number of unresponsive checks afterwards |
| FailureTracker.AlertingCrossing | src/main.rs:167 | the `down_times > 5` test first becomes true only on an unresponsive check made with exactly five failures already counted |
| FailureTracker.FailuresStep | src/main.rs:160-163 | extending the checked prefix by one response adds one failure exactly when that response is unresponsive |
| FailureTracker.FailuresMonotone | src/main.rs:156-164 | the failure count over a longer prefix of checks is never smaller: it is never reset or lowered |
| FailureTracker.FailuresPrefixBound | src/main.rs:156-164 | no earlier point of the window has more failures than a later one |
| Notifier.NewMail | src/main.rs:79-87 | a new mail is from the configured sender to the given recipient, with the fixed subject and an empty body |
| Notifier.AlertBody | src/main.rs:90 | the body is the fixed prefix, the server name verbatim, then the fixed suffix |
| Notifier.AlertBodyRoundTrip | src/main.rs:90 | the server name is recovered from every alert body |
| Notifier.ServerNameOfSound | src/main.rs:90 | any body from which a name is recovered is exactly that server's alert body |
| Notifier.AlertBodyInjective | src/main.rs:90 | different servers get different alert bodies |
| Notifier.SetBody | src/main.rs:89-92 | the body becomes the alert for the server; sender, recipient and subject are unchanged |
| Notifier.AlertMail | src/main.rs:171-172 | the alert for a recipient is from the sender, to that recipient, with the fixed subject and the server's alert body |
| Notifier.SendEmailSmtp | src/main.rs:98-111 | a send succeeds exactly when both addresses parse and the message builds, whatever the relay answers; an unparsable sender is reported as such |
| Notifier.SendFrom | src/main.rs:169-175 | sending from the i-th recipient on attempts at most one message per remaining recipient |
| Notifier.SendAlerts | src/main.rs:169-175 | the alert batch attempts at most one message per recipient |
| Notifier.SendFromSpec | src/main.rs:169-175 | from any position, the j-th attempt is the alert to the matching recipient; the batch errs exactly when it stops short, at the first unsendable message |
| Notifier.SendAlertsSpec | src/main.rs:169-175 | one attempt per recipient in list order with the fixed subject and the alert body; an error stops the batch at the first recipient whose message is not sendable |
| Notifier.SendAlertsCompletes | src/main.rs:169-175 | the batch completes exactly when every recipient's message is sendable |
| Notifier.DeliveryDoesNotStopBatch | src/main.rs:106-111 | the relay's verdicts change nothing but the recorded verdicts: the same recipients are attempted with the same messages and the same error ends the batch |
| Notifier.InvalidSenderSendsNothing | src/main.rs:98-99 | with an unparsable sender no message is attempted and the batch ends with that error |
| Monitor.Watch | src/main.rs:153-178 | the loop never runs beyond ten checks and never lowers its counters |
| Monitor.WatchCounts | src/main.rs:153-166 | from reachable counters, every check the loop completes was classified and the failure counter equals the number of unresponsive ones |
| Monitor.WatchAlert | src/main.rs:167-177 | from reachable counters, the loop stops at the threshold exactly when the failure count exceeds five, and then at the sixth unresponsive check |
| Monitor.WatchOtherStops | src/main.rs:155-156 | without an alert the loop stops after the tenth check or at the check that returned an error or panicked |
| Monitor.WatchSpec | src/main.rs:153-178 | from the initial counters: the loop counts unresponsive checks, alerts exactly above five at the sixth failure, and otherwise stops at the end of the window or at a failing check |
| Monitor.Conclude | src/main.rs:167-177 | only a crossed threshold sends mail, and at most one message per recipient |
| Monitor.RunMonitor | src/main.rs:153-179 | a monitor performs at most ten checks, and composes no mail unless the alert fired |
| Monitor.SendAlertBatch | src/main.rs:169-175 | the recipient loop computes the alert batch, at most one attempt per recipient |
| Monitor.CheckServer | src/main.rs:153-179 | the loop over mutable counters computes exactly `RunMonitor`'s report: at most ten checks, `down_times` equal to the unresponsive checks, alert exactly above five |
| Monitor.MonitorCounts | src/main.rs:153-166 | at most ten checks, each completed one classified, and `down_times` equals the number of unresponsive ones, never more than `times` |
| Monitor.AlertFiresAtFirstCrossing | src/main.rs:167-177 | the alert fires exactly when the failure count exceeds five, on the sixth unresponsive check, with the count at most five at every earlier point and no check after it |
| Monitor.NoAlertWithinThreshold | src/main.rs:155-178 | ten classified checks with at most five failures run the whole window with no alert and no mail |
| Monitor.AlertBeyondThreshold | src/main.rs:155-178 | ten classified checks with more than five failures always raise the alert |
| Monitor.ProbeFailureStops | src/main.rs:156 | the monitor ends with the body-read error, or with the status panic, exactly when the check after the last completed one produced it, before any alert |
| Monitor.AlertBatchContents | src/main.rs:169-175 | after an alert a missing `"emails"` key panics; otherwise the j-th message goes to the j-th recipient with the alert subject and body, and the monitor completes exactly when every message was sendable |
| Monitor.RelayVerdictsDoNotMatter | src/main.rs:106-111 | relay rejections change neither the checks, nor the recipients attempted, nor how the monitor ends |
| Monitor.NeverRespondingServer | src/main.rs:153-178 | a server that never answers gets exactly six checks and an alert, sent to every recipient when all messages are sendable |
| Monitor.AlwaysHealthyServer | src/main.rs:153-178 | a server that always answers 200 gets ten checks, no alert and no mail |

## Left out

- The HTTP client, the 10-second request timeout and the reading of the
  response body: each check is the abstract `Response` it produced.
- The SMTP transport and the actual delivery: the relay's answer is an
  input (`MailEnv.delivers`) and each message handed to it is recorded.
- Address parsing and message building are done by the mail library; they
  are inputs (`MailEnv.isAddress`, `MailEnv.builds`).
- Loading `SMTP_USER`, `SMTP_RELAY`, `SMTP_PASSWORD` and `EMAIL_LIST` from
  the environment (`MailInfo::new`, `Mail::new`): the sender and the parsed
  recipient map are parameters. The panics on a missing variable happen
  before monitoring starts.
- Parsing the server list and the recipient list JSON, and its `expect`
  panic: the parsed values are inputs.
- Building the SMTP transport and its `?` before the loop: a foreign call
  that happens before the first check.
- The concurrent fan-out of one monitor per server and the 2-second
  interval between checks: monitors share no state, so one monitor is
  modelled sequentially. A panic in one monitor ends the whole process;
  the model only records that the monitor panicked.
- Console logging.
