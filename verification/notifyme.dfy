/** The `notifyme` command's decision logic: from its flags, the settings and
    the lines read from standard input, which notifiers it builds, which
    notifications it composes, and what it hands to the transports, in which
    order, before it finishes or raises. The transports themselves are not
    modelled; each hand-over is recorded in a trace. */
module NotifyMe {
  import opened Basics
  import opened Text
  import opened Settings
  import PyInt
  import Email
  import Twitter

  /** The flags `run` reads. */
  datatype Args = Args(
    email: bool,
    twitter: bool,
    dryrun: bool,
    input: bool,
    message: string,
    subject: string)

  datatype Channel = EmailChannel | TwitterChannel

  /** The exceptions that end a run. */
  datatype RunError =
    | FailedToBuildEmailNotifier
    | FailedToBuildTwitterNotifier
      /** `getint` on `smtp_port` raised `ValueError`, which the e-mail
          builder does not catch. */
    | PortNotAnInteger(text: string)
      /** A lookup `run` makes outside the builders raised. */
    | SettingMissing(cause: LookupError)
      /** The transport raised after being handed its data. */
    | TransportFailed(channel: Channel)

  /** One hand-over to a transport. */
  datatype SendAction =
    | SentEmail(submission: Email.SmtpSubmission)
    | SentTweet(tweet: Twitter.Tweet)

  /** What a run did: the hand-overs in order, then the exception that ended
      it, if any. */
  datatype RunResult = RunResult(sent: seq<SendAction>, error: Option<RunError>)

  const Me := "me"
  const EmailSection := "email"
  const TwitterSection := "twitter"

  /** All four options the e-mail builder reads are present. */
  predicate HasSmtpOptions(config: Config)
  {
    && Has(config, EmailSection, "smtp_username")
    && Has(config, EmailSection, "smtp_password")
    && Has(config, EmailSection, "smtp_server")
    && Has(config, EmailSection, "smtp_port")
  }

  /** The e-mail builder succeeds on these settings. */
  predicate SmtpSettingsValid(config: Config)
  {
    HasSmtpOptions(config) && PyInt.ParseInt(config[EmailSection]["smtp_port"]).Some?
  }

  /** All four options the Twitter builder reads are present. */
  predicate HasTwitterOptions(config: Config)
  {
    && Has(config, TwitterSection, "consumer_key")
    && Has(config, TwitterSection, "consumer_secret")
    && Has(config, TwitterSection, "access_key")
    && Has(config, TwitterSection, "access_secret")
  }

  /** `build_email_notifier`: reads username, password, server and port in
      that order; a failed lookup becomes `FailedToBuildEmailNotifier`, a port
      `int()` rejects escapes as `ValueError`. */
  function BuildEmailNotifier(config: Config): (r: Result<Email.EmailNotifier, RunError>)
    ensures r.Ok? <==> SmtpSettingsValid(config)
    ensures r == Err(FailedToBuildEmailNotifier) <==> !HasSmtpOptions(config)
    ensures HasSmtpOptions(config) && PyInt.ParseInt(config[EmailSection]["smtp_port"]).None? ==>
              r == Err(PortNotAnInteger(config[EmailSection]["smtp_port"]))
    ensures r.Ok? ==>
              && r.value.smtpHost == config[EmailSection]["smtp_server"]
              && r.value.smtpPort == PyInt.ParseInt(config[EmailSection]["smtp_port"]).value
              && r.value.smtpUsername == config[EmailSection]["smtp_username"]
              && r.value.smtpPassword == config[EmailSection]["smtp_password"]
  {
    match Get(config, EmailSection, "smtp_username")
    case Err(_) => Err(FailedToBuildEmailNotifier)
    case Ok(username) =>
      match Get(config, EmailSection, "smtp_password")
      case Err(_) => Err(FailedToBuildEmailNotifier)
      case Ok(password) =>
        match Get(config, EmailSection, "smtp_server")
        case Err(_) => Err(FailedToBuildEmailNotifier)
        case Ok(server) =>
          match GetInt(config, EmailSection, "smtp_port")
          case Err(LookupFailed(_)) => Err(FailedToBuildEmailNotifier)
          case Err(NotAnInteger(text)) => Err(PortNotAnInteger(text))
          case Ok(port) =>
            Ok(Email.EmailNotifier(smtpHost := server, smtpPort := port,
                                   smtpUsername := username, smtpPassword := password))
  }

  /** `build_twitter_notifier`: reads the four credentials; a failed lookup
      becomes `FailedToBuildTwitterNotifier`. */
  function BuildTwitterNotifier(config: Config): (r: Result<Twitter.TwitterNotifier, RunError>)
    ensures r.Ok? <==> HasTwitterOptions(config)
    ensures r.Err? ==> r.error == FailedToBuildTwitterNotifier
    ensures r.Ok? ==>
              && r.value.consumerKey == config[TwitterSection]["consumer_key"]
              && r.value.consumerSecret == config[TwitterSection]["consumer_secret"]
              && r.value.accessKey == config[TwitterSection]["access_key"]
              && r.value.accessSecret == config[TwitterSection]["access_secret"]
  {
    match Get(config, TwitterSection, "consumer_key")
    case Err(_) => Err(FailedToBuildTwitterNotifier)
    case Ok(consumerKey) =>
      match Get(config, TwitterSection, "consumer_secret")
      case Err(_) => Err(FailedToBuildTwitterNotifier)
      case Ok(consumerSecret) =>
        match Get(config, TwitterSection, "access_key")
        case Err(_) => Err(FailedToBuildTwitterNotifier)
        case Ok(accessKey) =>
          match Get(config, TwitterSection, "access_secret")
          case Err(_) => Err(FailedToBuildTwitterNotifier)
          case Ok(accessSecret) =>
            Ok(Twitter.TwitterNotifier(consumerSecret := consumerSecret, consumerKey := consumerKey,
                                       accessSecret := accessSecret, accessKey := accessKey))
  }

  /** The message sent: the message argument, followed by every line read
      from standard input in order when `--input` is given. */
  function Message(args: Args, stdin: seq<string>): (m: string)
    ensures args.message <= m
    ensures !args.input ==> m == args.message
  {
    if args.input then args.message + Join("", stdin) else args.message
  }

  /** `run`'s loop `for line in stdin.readlines(): message += line`. */
  method ComposeMessage(args: Args, stdin: seq<string>) returns (message: string)
    ensures message == Message(args, stdin)
  {
    message := args.message;
    if args.input {
      var i := 0;
      while i < |stdin|
        invariant 0 <= i <= |stdin|
        invariant message == args.message + Join("", stdin[..i])
      {
        JoinSnoc("", stdin[..i], stdin[i]);
        assert stdin[..i + 1] == stdin[..i] + [stdin[i]];
        message := message + stdin[i];
        i := i + 1;
      }
      assert stdin[..i] == stdin;
    }
  }

  /** The e-mail subject: the `--subject` argument, or else the first ten
      characters (fewer if it is shorter) of the message argument. */
  function EmailSubject(args: Args): (s: string)
    ensures args.subject != "" ==> s == args.subject
    ensures args.subject == "" ==> s <= args.message && |s| == Min(10, |args.message|)
  {
    if args.subject != "" then args.subject else args.message[..Min(10, |args.message|)]
  }

  /** The `--email` block of `run`: at most one hand-over, an e-mail, and
      none in a dry run. */
  function EmailStep(args: Args, config: Config, message: string, refused: set<Channel>): (r: RunResult)
    ensures |r.sent| <= 1
    ensures forall k :: 0 <= k < |r.sent| ==> r.sent[k].SentEmail?
    ensures args.dryrun ==> r.sent == []
    ensures !args.dryrun && r.error.None? ==> |r.sent| == 1
  {
    match BuildEmailNotifier(config)
    case Err(e) => RunResult([], Some(e))
    case Ok(notifier) =>
      var subject := EmailSubject(args);
      match Get(config, EmailSection, "sender_email")
      case Err(e) => RunResult([], Some(SettingMissing(e)))
      case Ok(originator) =>
        match Get(config, Me, "email")
        case Err(e) => RunResult([], Some(SettingMissing(e)))
        case Ok(recipient) =>
          var notification := Email.EmailNotification(originator, [recipient], subject, message);
          if args.dryrun then RunResult([], None)
          else
            RunResult([SentEmail(Email.Send(notifier, notification))],
                      if EmailChannel in refused then Some(TransportFailed(EmailChannel)) else None)
  }

  /** The `--twitter` block of `run`: at most one hand-over, a post, and
      none in a dry run. */
  function TwitterStep(args: Args, config: Config, message: string, refused: set<Channel>): (r: RunResult)
    ensures |r.sent| <= 1
    ensures forall k :: 0 <= k < |r.sent| ==> r.sent[k].SentTweet?
    ensures args.dryrun ==> r.sent == []
    ensures !args.dryrun && r.error.None? ==> |r.sent| == 1
  {
    match BuildTwitterNotifier(config)
    case Err(e) => RunResult([], Some(e))
    case Ok(notifier) =>
      match Get(config, Me, "twitter")
      case Err(e) => RunResult([], Some(SettingMissing(e)))
      case Ok(recipient) =>
        var notification := Twitter.TwitterNotification([recipient], message);
        if args.dryrun then RunResult([], None)
        else
          RunResult([SentTweet(Twitter.Send(notifier, notification))],
                    if TwitterChannel in refused then Some(TransportFailed(TwitterChannel)) else None)
  }

  /** `run`: compose the message, then the e-mail block, then the Twitter
      block; an exception in the first ends the run before the second.
      `refused` names the channels whose transport raises when handed data.
      A dry run hands nothing over; a live run that ends normally hands over
      one e-mail per `--email` and one post per `--twitter`, the e-mail
      first. */
  function Run(args: Args, config: Config, stdin: seq<string>, refused: set<Channel>): (r: RunResult)
    ensures |r.sent| <= 2
    ensures args.dryrun ==> r.sent == []
    ensures !args.dryrun && r.error.None? ==>
              |r.sent| == (if args.email then 1 else 0) + (if args.twitter then 1 else 0)
    ensures |r.sent| == 2 ==> r.sent[0].SentEmail? && r.sent[1].SentTweet?
  {
    var message := Message(args, stdin);
    var e := if args.email then EmailStep(args, config, message, refused) else RunResult([], None);
    if e.error.Some? || !args.twitter then e
    else
      var t := TwitterStep(args, config, message, refused);
      RunResult(e.sent + t.sent, t.error)
  }
}
