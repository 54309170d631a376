/** The alert e-mail (`Mail` in src/main.rs): composing one message per
    recipient and the error behaviour of sending it.

    The mail library is not modelled. What it decides is passed in as a
    `MailEnv`: whether a string parses as an address, whether a message with
    parsed addresses can be built, and whether the relay accepted the n-th
    message of a batch. */
module Notifier {
  import opened Wrappers

  /** The subject every alert carries. */
  const Subject: string := "Control Servidores RTO"

  /** The alert body is `BodyPrefix + <server name> + BodySuffix`. */
  const BodyPrefix: string := "Servidor "
  const BodySuffix: string := " potencialmente apagado revisar."

  datatype Mail = Mail(from: string, to: string, subject: string, body: string)

  /** The decisions of the mail library and the relay. */
  datatype MailEnv = MailEnv(
    isAddress: string -> bool,
    builds: Mail -> bool,
    delivers: nat -> bool)

  /** Why sending one message returned an error. */
  datatype SendError = InvalidFrom | InvalidTo | BuildFailed

  /** A message handed to the relay, and whether the relay accepted it. */
  datatype Attempt = Attempt(mail: Mail, delivered: bool)

  /** The messages handed to the relay for one alert, in recipient order, and
      the error that stopped the batch, if any. */
  datatype Batch = Batch(attempts: seq<Attempt>, error: Option<SendError>)

  /** A fresh message from the configured sender to one recipient, with the
      alert subject and an empty body. */
  function NewMail(sender: string, to: string): (m: Mail)
    ensures m.from == sender && m.to == to
    ensures m.subject == Subject && m.body == []
  {
    Mail(sender, to, Subject, "")
  }

  /** The alert text for a server; it carries the server name verbatim
      between the fixed prefix and suffix. */
  function AlertBody(serverName: string): (b: string)
    ensures |b| == |BodyPrefix| + |serverName| + |BodySuffix|
    ensures b[..|BodyPrefix|] == BodyPrefix
    ensures b[|BodyPrefix|..|BodyPrefix| + |serverName|] == serverName
    ensures b[|BodyPrefix| + |serverName|..] == BodySuffix
  {
    BodyPrefix + serverName + BodySuffix
  }

  /** Reads the server name back out of an alert body, if it is one. */
  function ServerNameOf(body: string): (n: Option<string>)
    ensures n.Some? ==> |n.value| + |BodyPrefix| + |BodySuffix| == |body|
  {
    if |BodyPrefix| + |BodySuffix| <= |body|
       && body[..|BodyPrefix|] == BodyPrefix
       && body[|body| - |BodySuffix|..] == BodySuffix
    then Some(body[|BodyPrefix|..|body| - |BodySuffix|])
    else None
  }

  /** The server name can be recovered from every alert body. */
  lemma AlertBodyRoundTrip(serverName: string)
    ensures ServerNameOf(AlertBody(serverName)) == Some(serverName)
  {
  }

  /** Every body from which a server name is read back is that server's
      alert body: `ServerNameOf` accepts alert bodies and nothing else. */
  lemma ServerNameOfSound(body: string)
    ensures ServerNameOf(body).Some? ==> AlertBody(ServerNameOf(body).value) == body
  {
  }

  /** Alerts for different servers have different bodies. */
  lemma AlertBodyInjective(a: string, b: string)
    ensures AlertBody(a) == AlertBody(b) ==> a == b
  {
  }

  /** Puts the alert text for a server in the body; sender, recipient and
      subject are left as they were. */
  function SetBody(m: Mail, serverName: string): (r: Mail)
    ensures r.from == m.from && r.to == m.to && r.subject == m.subject
    ensures ServerNameOf(r.body) == Some(serverName)
  {
    AlertBodyRoundTrip(serverName);
    m.(body := AlertBody(serverName))
  }

  /** The alert for one recipient, as `Mail::new(to).set_body(name)` builds it. */
  function AlertMail(sender: string, to: string, serverName: string): (m: Mail)
    ensures m == Mail(sender, to, Subject, AlertBody(serverName))
  {
    SetBody(NewMail(sender, to), serverName)
  }

  /** Both addresses parse and the message builds. */
  predicate Sendable(m: Mail, env: MailEnv) {
    env.isAddress(m.from) && env.isAddress(m.to) && env.builds(m)
  }

  /** Sends one message. An unparsable sender or recipient, or a message that
      cannot be built, is an error returned to the caller; a message the
      relay rejects is only logged, and the send still succeeds. */
  function SendEmailSmtp(m: Mail, env: MailEnv, delivered: bool): (r: Result<Attempt, SendError>)
    ensures r.Ok? <==> Sendable(m, env)
    ensures r.Ok? ==> r.value == Attempt(m, delivered)
    ensures r.Err? ==> (r.error == InvalidFrom <==> !env.isAddress(m.from))
  {
    if !env.isAddress(m.from) then Err(InvalidFrom)
    else if !env.isAddress(m.to) then Err(InvalidTo)
    else if !env.builds(m) then Err(BuildFailed)
    else Ok(Attempt(m, delivered))
  }

  /** Sends the alert to `recipients[i..]`, in order, stopping at the first
      send that returns an error. */
  function SendFrom(recipients: seq<string>, i: nat, sender: string, serverName: string, env: MailEnv): (b: Batch)
    requires i <= |recipients|
    ensures |b.attempts| <= |recipients| - i
    decreases |recipients| - i
  {
    if i == |recipients| then Batch([], None)
    else
      match SendEmailSmtp(AlertMail(sender, recipients[i], serverName), env, env.delivers(i))
      case Err(e) => Batch([], Some(e))
      case Ok(a) =>
        var rest := SendFrom(recipients, i + 1, sender, serverName, env);
        Batch([a] + rest.attempts, rest.error)
  }

  /** The alert batch: one message per recipient, in list order. */
  function SendAlerts(recipients: seq<string>, sender: string, serverName: string, env: MailEnv): (b: Batch)
    ensures |b.attempts| <= |recipients|
  {
    SendFrom(recipients, 0, sender, serverName, env)
  }

  /** What a batch does, from position `i` on: the j-th attempt is the alert
      to the j-th recipient with the relay's verdict; the batch errs exactly
      when some recipient's message is not sendable, and then the error is
      that of the first such recipient, which is the one right after the
      last attempt. */
  lemma {:induction false} SendFromSpec(recipients: seq<string>, i: nat, sender: string, serverName: string, env: MailEnv)
    requires i <= |recipients|
    ensures var b := SendFrom(recipients, i, sender, serverName, env);
      && i + |b.attempts| <= |recipients|
      && (forall j :: 0 <= j < |b.attempts| ==>
            && b.attempts[j] == Attempt(AlertMail(sender, recipients[i + j], serverName), env.delivers(i + j))
            && Sendable(b.attempts[j].mail, env))
      && (b.error.None? <==> i + |b.attempts| == |recipients|)
      && (b.error.Some? ==>
            var m := AlertMail(sender, recipients[i + |b.attempts|], serverName);
            !Sendable(m, env) && SendEmailSmtp(m, env, env.delivers(i + |b.attempts|)) == Err(b.error.value))
    decreases |recipients| - i
  {
    if i < |recipients| {
      SendFromSpec(recipients, i + 1, sender, serverName, env);
    }
  }

  /** The alert batch, from the first recipient on: the j-th attempt is the
      alert to the j-th recipient, every attempted message was sendable, and
      the batch errs exactly when it stops short of the last recipient, at a
      recipient whose message is not sendable. */
  lemma SendAlertsSpec(recipients: seq<string>, sender: string, serverName: string, env: MailEnv)
    ensures var b := SendAlerts(recipients, sender, serverName, env);
      && (forall j :: 0 <= j < |b.attempts| ==>
            && b.attempts[j].mail == Mail(sender, recipients[j], Subject, AlertBody(serverName))
            && b.attempts[j].delivered == env.delivers(j)
            && Sendable(b.attempts[j].mail, env))
      && (b.error.None? <==> |b.attempts| == |recipients|)
      && (b.error.Some? ==> !Sendable(AlertMail(sender, recipients[|b.attempts|], serverName), env))
  {
    var b := SendAlerts(recipients, sender, serverName, env);
    SendFromSpec(recipients, 0, sender, serverName, env);
    forall j | 0 <= j < |b.attempts|
      ensures b.attempts[j].mail == Mail(sender, recipients[j], Subject, AlertBody(serverName))
      ensures b.attempts[j].delivered == env.delivers(j)
      ensures Sendable(b.attempts[j].mail, env)
    {
      assert b.attempts[j] == Attempt(AlertMail(sender, recipients[0 + j], serverName), env.delivers(0 + j));
    }
  }

  /** A batch completes exactly when every recipient's alert is sendable. */
  lemma SendAlertsCompletes(recipients: seq<string>, sender: string, serverName: string, env: MailEnv)
    ensures SendAlerts(recipients, sender, serverName, env).error.None?
            <==> forall j :: 0 <= j < |recipients| ==> Sendable(AlertMail(sender, recipients[j], serverName), env)
  {
    var b := SendAlerts(recipients, sender, serverName, env);
    SendAlertsSpec(recipients, sender, serverName, env);
    if b.error.None? {
      forall j | 0 <= j < |recipients|
        ensures Sendable(AlertMail(sender, recipients[j], serverName), env)
      {
        assert Sendable(b.attempts[j].mail, env);
      }
    }
  }

  /** A message the relay rejects never stops the batch: with any other
      relay verdicts the same recipients are attempted and the same error,
      if any, ends the batch. */
  lemma {:induction false} DeliveryDoesNotStopBatch(recipients: seq<string>, i: nat, sender: string, serverName: string, env: MailEnv, verdicts: nat -> bool)
    requires i <= |recipients|
    ensures var b1 := SendFrom(recipients, i, sender, serverName, env);
            var b2 := SendFrom(recipients, i, sender, serverName, env.(delivers := verdicts));
            |b1.attempts| == |b2.attempts| && b1.error == b2.error
            && forall j :: 0 <= j < |b1.attempts| ==> b1.attempts[j].mail == b2.attempts[j].mail
    decreases |recipients| - i
  {
    if i < |recipients| {
      DeliveryDoesNotStopBatch(recipients, i + 1, sender, serverName, env, verdicts);
    }
  }

  /** An unparsable sender stops the batch before any message is attempted. */
  lemma InvalidSenderSendsNothing(recipients: seq<string>, sender: string, serverName: string, env: MailEnv)
    requires |recipients| > 0 && !env.isAddress(sender)
    ensures SendAlerts(recipients, sender, serverName, env) == Batch([], Some(InvalidFrom))
  {
  }
}
