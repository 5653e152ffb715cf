/** The e-mail channel: a notification renders to a message with From, To,
    an optional Subject and a text body; the notifier hands that message,
    with its SMTP parameters, to the mail-sending client. */
module Email {
  import opened Basics
  import opened Text

  datatype EmailNotification = EmailNotification(
    originator: string,
    recipients: seq<string>,
    subject: string,
    content: string)

  /** The header/body structure the program sets on its message. The To and
      From values are kept as plain strings, not parsed address lists. */
  datatype EmailMessage = EmailMessage(
    fromHeader: string,
    toHeader: string,
    subjectHeader: Option<string>,
    body: string)

  /** The rendered message: From is the originator, To lists every recipient
      separated by ", ", a Subject header exists only for a non-empty
      subject, and the body is the content. */
  function Payload(n: EmailNotification): (m: EmailMessage)
    ensures m.fromHeader == n.originator
    ensures m.body == n.content
    ensures m.subjectHeader.Some? <==> n.subject != ""
    ensures m.subjectHeader.Some? ==> m.subjectHeader.value == n.subject
    ensures |n.recipients| == 0 ==> m.toHeader == ""
    ensures |n.recipients| == 1 ==> m.toHeader == n.recipients[0]
    ensures |n.recipients| >= 1 ==> n.recipients[0] <= m.toHeader
  {
    EmailMessage(
      n.originator,
      Join(", ", n.recipients),
      if n.subject != "" then Some(n.subject) else None,
      n.content)
  }

  /** Reads a message back as the notification it came from: the To header
      is split at its commas and a missing Subject means the empty subject. */
  function Parse(m: EmailMessage): EmailNotification
  {
    var subject := if m.subjectHeader.Some? then m.subjectHeader.value else "";
    EmailNotification(m.fromHeader, SplitList(m.toHeader), subject, m.body)
  }

  /** A notification whose recipients `Parse` can recover: at least one, and
      no recipient containing a comma. */
  predicate Recoverable(n: EmailNotification)
  {
    |n.recipients| >= 1 && CommaFree(n.recipients)
  }

  /** Rendering loses nothing for a recoverable notification. */
  lemma ParsePayload(n: EmailNotification)
    requires Recoverable(n)
    ensures Parse(Payload(n)) == n
  {
    SplitJoin(n.recipients);
  }

  /** An independent reading of the To header, built from the back: each
      recipient after the first is introduced by ", ", whatever characters
      the recipients hold. */
  function AddressList(recipients: seq<string>): string
  {
    if |recipients| == 0 then ""
    else if |recipients| == 1 then recipients[0]
    else AddressList(recipients[..|recipients| - 1]) + ", " + recipients[|recipients| - 1]
  }

  /** For every notification, commas inside recipients included, the To
      header is the reference address list. */
  lemma {:induction false} ToHeaderMatchesAddressList(n: EmailNotification)
    ensures Payload(n).toHeader == AddressList(n.recipients)
  {
    JoinIsAddressList(n.recipients);
  }

  lemma {:induction false} JoinIsAddressList(recipients: seq<string>)
    ensures Join(", ", recipients) == AddressList(recipients)
    decreases |recipients|
  {
    var n := |recipients|;
    if n >= 2 {
      var front := recipients[..n - 1];
      assert recipients == front + [recipients[n - 1]];
      JoinSnoc(", ", front, recipients[n - 1]);
      JoinIsAddressList(front);
    }
  }

  /** With at least one recipient, the To header holds every recipient's
      characters plus two per separator. */
  lemma ToHeaderLength(n: EmailNotification)
    requires |n.recipients| >= 1
    ensures |Payload(n).toHeader| == TotalLength(n.recipients) + 2 * (|n.recipients| - 1)
  {
    JoinLength(", ", n.recipients);
  }

  /** When no recipient contains a comma, splitting the To header at its
      commas gives back exactly the recipients, in order. */
  lemma ToHeaderLists(n: EmailNotification)
    requires Recoverable(n)
    ensures SplitList(Payload(n).toHeader) == n.recipients
  {
    SplitJoin(n.recipients);
  }

  /** Two recoverable notifications with the same message are the same. */
  lemma PayloadInjective(n1: EmailNotification, n2: EmailNotification)
    requires Recoverable(n1) && Recoverable(n2)
    requires Payload(n1) == Payload(n2)
    ensures n1 == n2
  {
    ParsePayload(n1);
    ParsePayload(n2);
  }

  /** The SMTP connection parameters an `EmailNotifier` owns. */
  datatype EmailNotifier = EmailNotifier(
    smtpHost: string,
    smtpPort: int,
    smtpUsername: string,
    smtpPassword: string)

  /** What reaches the mail-sending client: the parameters it was built with
      and the one message it is asked to send. */
  datatype SmtpSubmission = SmtpSubmission(
    server: string,
    port: int,
    username: string,
    password: string,
    message: EmailMessage)

  /** `EmailNotifier.send`: the notifier's parameters and the notification's
      rendered message go to the client unchanged. */
  function Send(notifier: EmailNotifier, n: EmailNotification): (s: SmtpSubmission)
    ensures s.server == notifier.smtpHost && s.port == notifier.smtpPort
    ensures s.username == notifier.smtpUsername && s.password == notifier.smtpPassword
    ensures s.message == Payload(n)
  {
    SmtpSubmission(notifier.smtpHost, notifier.smtpPort, notifier.smtpUsername, notifier.smtpPassword, Payload(n))
  }
}
