# pynotify in Dafny

A model of the core of pynotify, a small tool that sends a message to its
user by e-mail, by a Twitter post, or both. It covers three pieces.

- **Twitter channel** (`Twitter`). A `TwitterNotification` renders to one
  status text: every recipient as `@handle`, joined by `", "`, then `" - "`,
  then the content. A `TwitterNotifier` owns four API credentials. Its `Send`
  hands those credentials and the rendered text to the posting client.
- **E-mail channel** (`Email`). An `EmailNotification` renders to an
  `EmailMessage` record with a From header, a To header, an optional Subject
  header and a body. An `EmailNotifier` owns the SMTP host, port, user name
  and password. Its `Send` hands those and the rendered message to the mail
  client. The From and To values correspond loosely to the originator and
  destination fields of sections 3.6.2 and 3.6.3 of RFC 5322. They are kept
  as plain strings, not parsed address lists.
- **The `notifyme` dispatcher** (`NotifyMe`, properties in
  `NotifyMeProperties`). `Run` takes the command-line flags (`Args`), the
  settings file as read (`Settings.Config`, sections of options), the lines
  on standard input, and the set of channels whose transport raises. It
  returns a `RunResult`: the ordered trace of hand-overs to the transports,
  and the exception that ended the run, if any. The e-mail builder reads
  `smtp_port` through Python's `int()`, which `PyInt` models together with
  `str()`. The ", "-joined lists use `Text.Join`, Python's `str.join`.

Every payload is a Dafny function of the notification's fields. So rendering
the same notification twice always yields equal values.

How the code handles failures, as modelled:

- A non-integer `smtp_port` makes `getint` raise `ValueError`. That is not a
  `configparser.Error`, so `build_email_notifier` does not catch it. The model
  ends the run with `PortNotAnInteger`, not `FailedToBuildEmailNotifier`.
- `run` catches nothing. So an e-mail builder failure ends the run before the
  Twitter block. A Twitter failure after a delivered e-mail leaves that
  e-mail sent.
- The lookups of `sender_email`, `me.email` and `me.twitter` in `run` are
  outside any handler. A missing one ends the run with `SettingMissing`.
- The subject fallback truncates the message argument, not the message
  extended with standard input. This is modelled as written. One consequence
  is proved: when both the subject argument and the message argument are
  empty, the e-mail has no Subject header, even if standard input supplied
  the text.

## Model

| member | source | states |
|---|---|---|
| Twitter.Payload | pynotify/twitter.py:10-13 | the text ends with " - " and the content; with no recipients it is exactly " - " and the content; otherwise it starts with '@' |
| Twitter.PayloadMatchesMentionList | pynotify/twitter.py:13 | for every notification, the text equals an independently defined mention list ("@a", then ", @b" for each later handle), " - ", and the content |
| Twitter.OneRecipient | pynotify/twitter.py:13 | recipients [a] give "@a - content" |
| Twitter.TwoRecipients | pynotify/twitter.py:13 | recipients [a, b] give "@a, @b - content" |
| Twitter.PayloadLength | pynotify/twitter.py:13 | for n >= 1 recipients the length is the sum of (handle length + 1), plus 2(n-1), plus 3, plus the content length |
| Twitter.MentionsRecoverable | pynotify/twitter.py:13 | when no handle contains a comma, splitting the text before " - " at its commas gives back every mention, in order |
| Twitter.Send | pynotify/twitter.py:16-29 | the four credentials reach the posting client under their own names, unchanged, with the notification's rendered text |
| Email.Payload | pynotify/email.py:14-23 | From is the originator and the body is the content; a Subject header exists iff the subject is non-empty, and then equals it; To is empty for no recipients and is the recipient itself for one |
| Email.ParsePayload | pynotify/email.py:14-31 | reading the message back (To split at commas, a missing Subject read as "") returns the notification, for at least one recipient and comma-free recipients |
| Email.ToHeaderMatchesAddressList | pynotify/email.py:20 | for every notification, commas inside recipients included, the To header equals an independently defined list: the first recipient, then ", " and each later one |
| Email.ToHeaderLength | pynotify/email.py:20 | with at least one recipient, the To header's length is the recipients' total length plus two per separator |
| Email.ToHeaderLists | pynotify/email.py:20 | with at least one recipient and none containing a comma, splitting the To header at its commas gives back exactly the recipients in order |
| Email.PayloadInjective | pynotify/email.py:14-31 | two such notifications with equal messages are equal |
| Email.Send | pynotify/email.py:34-39 | the mail client receives the notifier's host, port, user name and password, and exactly one message: the rendered payload |
| Settings.Get | scripts/notifyme.py:79-81 | a lookup succeeds iff section and option exist, returning the stored value; otherwise it raises NoSectionError or NoOptionError |
| Settings.GetInt | scripts/notifyme.py:82 | the lookup succeeds iff the option exists and `int()` accepts its value; a missing option is a lookup error; a present value `int()` rejects is the ValueError `NotAnInteger` carrying that value |
| PyInt.ParseFormatInt | scripts/notifyme.py:82 | `int()` reads back what `str()` writes, for every integer |
| PyInt.SeparatorIsNotSpace | scripts/notifyme.py:82 | `int()` does not skip the ASCII separator U+001C: "\x1c25" is rejected |
| NotifyMe.BuildEmailNotifier | scripts/notifyme.py:76-89 | succeeds iff the four smtp options exist and the port parses; server becomes host, the parsed port becomes the port, user name and password carry over; a missing option gives FailedToBuildEmailNotifier; a bad port gives the uncaught ValueError |
| NotifyMe.BuildTwitterNotifier | scripts/notifyme.py:96-108 | succeeds iff the four twitter options exist, storing each under the same-named field; otherwise FailedToBuildTwitterNotifier |
| NotifyMe.Message | scripts/notifyme.py:118-123 | the message argument is a prefix of the sent message, and is all of it without --input |
| NotifyMe.ComposeMessage | scripts/notifyme.py:118-123 | the line-by-line loop yields the message argument followed by every stdin line in order |
| NotifyMe.EmailSubject | scripts/notifyme.py:128 | the subject argument if non-empty, else the prefix of the message argument of length min(10, its length) |
| NotifyMe.EmailStep | scripts/notifyme.py:125-136 | the e-mail block hands over at most one thing, an e-mail; nothing in a dry run; exactly one e-mail in a live run that ends normally |
| NotifyMe.TwitterStep | scripts/notifyme.py:138-147 | the Twitter block hands over at most one thing, a post; nothing in a dry run; exactly one post in a live run that ends normally |
| NotifyMe.Run | scripts/notifyme.py:111-147 | at most two hand-overs; none in a dry run; a live run that ends normally hands over one e-mail per --email and one post per --twitter; with two, the e-mail comes first (the full trace is stated by RunTraceShape, CompleteRun and RunSucceedsIffReady) |
| NotifyMeProperties.RunTraceShape | scripts/notifyme.py:111-147 | for all inputs: at most two hand-overs; none in a dry run; an e-mail only if requested and always first, a post only if requested and always last |
| NotifyMeProperties.EmailStepReady | scripts/notifyme.py:125-136 | with complete e-mail settings the block hands over exactly one message built from the settings, and raises iff the mail transport refuses |
| NotifyMeProperties.TwitterStepReady | scripts/notifyme.py:138-147 | with complete Twitter settings the block hands over exactly one post "@handle - message" with the four credentials, and raises iff the transport refuses |
| NotifyMeProperties.CompleteRun | scripts/notifyme.py:125-147 | with complete settings and no refusing transport, the trace is the e-mail if requested followed by the post if requested, and the run ends normally |
| NotifyMeProperties.RunSucceedsIffReady | scripts/notifyme.py:125-147 | with no refusing transport, a run ends without exception iff every requested channel's settings are complete |
| NotifyMeProperties.DryRunStillBuilds | scripts/notifyme.py:125-147 | a dry run hands nothing over but raises exactly what the live run raises while building |
| NotifyMeProperties.EmailBuildFailureEndsRun | scripts/notifyme.py:125-127 | a failing e-mail builder ends the run with its error before any hand-over, Twitter requested or not |
| NotifyMeProperties.TwitterBuildFailureAfterEmail | scripts/notifyme.py:132-140 | a failing Twitter builder after a delivered e-mail leaves that e-mail in the trace and ends with FailedToBuildTwitterNotifier |
| NotifyMeProperties.EmailTransportFailureEndsRun | scripts/notifyme.py:132-138 | a raising mail transport ends the run after its hand-over, and no post is attempted |
| NotifyMeProperties.SubjectIgnoresStdin | scripts/notifyme.py:118-130 | the Subject header is the same whatever stdin holds; with empty subject and message arguments there is none |

## Left out

- The `MIMEText` internals: the Content-Type, charset and transfer-encoding headers, and the `preamble`. These are library behaviour. The message keeps only the headers and body the program sets itself.
- `SMTPSender` and `tweet`, the network clients. Each hand-over becomes a trace entry. Whether a transport raises is an input, the `refused` set. Its failure causes are not modelled.
- Argument parsing, the settings-file location (`NOTIFY_ME`, the working directory), `create_ini`, `main`, and reading the file. These are OS and file I/O. The settings arrive as a map.
- `ConfigParser` details beyond lookup: the DEFAULT section fallback, value interpolation, and option-name lower-casing. The map holds effective, already-interpolated values.
- NotifyMe.BuildEmailNotifier: does not model a value whose interpolation fails (a lone `%`, as in `50%off`). There `config.get` raises `InterpolationSyntaxError`, a `configparser.Error`, so the real builder raises `FailedToBuildEmailNotifier` although all four options exist. The "succeeds iff" holds only for values that interpolate cleanly.
- NotifyMe.BuildTwitterNotifier: the same interpolation failure makes the real builder raise `FailedToBuildTwitterNotifier` with all four options present. The model does not cover that case.
- Logging and the `e.message` access in the two exception handlers. These have no effect on the outcome. Each handler is modelled as raising its `FailedToBuild…` error.
- The shared mutable default `recipients=[]`. Sequences here are immutable values.
- The default-argument constructors of the notifications and of `TwitterNotifier`. The dispatcher always passes every field.
- PyInt.ParseInt: does not model non-ASCII decimal digits, which Python's `int()` also accepts. They are not expected in a port number. It also accepts any number of digits, while Python 3.11 and later raise `ValueError` past 4300 digits.
- PyInt.ParseFormatInt: "for every integer" holds for the model's `int()` and `str()`. Python 3.11 and later refuse both directions past 4300 digits.
