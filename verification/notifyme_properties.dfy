/** Properties of the `notifyme` run: what it hands over when the settings
    are complete, when it fails and what has gone out by then, and what a
    dry run still checks. */
module NotifyMeProperties {
  import opened Basics
  import opened Settings
  import PyInt
  import Email
  import Twitter
  import opened NotifyMe

  /** Every lookup of the e-mail block succeeds. */
  predicate EmailReady(config: Config)
  {
    SmtpSettingsValid(config) && Has(config, EmailSection, "sender_email") && Has(config, Me, "email")
  }

  /** Every lookup of the Twitter block succeeds. */
  predicate TwitterReady(config: Config)
  {
    HasTwitterOptions(config) && Has(config, Me, "twitter")
  }

  /** Every lookup of the requested channels succeeds. */
  predicate Ready(args: Args, config: Config)
  {
    (args.email ==> EmailReady(config)) && (args.twitter ==> TwitterReady(config))
  }

  /** The hand-over to the mail client, spelled out from the settings: the
      SMTP parameters from the `email` section, From `sender_email`, To the
      `me` section's `email`, and a Subject header only when the subject
      argument or, failing it, the message argument is non-empty. */
  function ExpectedEmail(args: Args, config: Config, message: string): SendAction
    requires EmailReady(config)
  {
    var e := config[EmailSection];
    SentEmail(Email.SmtpSubmission(
      e["smtp_server"], PyInt.ParseInt(e["smtp_port"]).value, e["smtp_username"], e["smtp_password"],
      Email.EmailMessage(
        e["sender_email"],
        config[Me]["email"],
        if args.subject != "" then Some(args.subject)
        else if args.message != "" then Some(args.message[..Min(10, |args.message|)])
        else None,
        message)))
  }

  /** The hand-over to the posting client, spelled out from the settings: the
      four `twitter` credentials and "@handle - message" for the `me`
      section's `twitter` handle. */
  function ExpectedTweet(config: Config, message: string): SendAction
    requires TwitterReady(config)
  {
    var t := config[TwitterSection];
    SentTweet(Twitter.Tweet(
      t["consumer_key"], t["consumer_secret"], t["access_key"], t["access_secret"],
      "@" + config[Me]["twitter"] + " - " + message))
  }

  /** The exception, if any, a channel's transport raises. */
  function TransportOutcome(channel: Channel, refused: set<Channel>): Option<RunError>
  {
    if channel in refused then Some(TransportFailed(channel)) else None
  }

  /** With its settings complete, the e-mail block hands over exactly the
      expected message, once. */
  lemma EmailStepReady(args: Args, config: Config, message: string, refused: set<Channel>)
    requires EmailReady(config) && !args.dryrun
    ensures EmailStep(args, config, message, refused) ==
              RunResult([ExpectedEmail(args, config, message)], TransportOutcome(EmailChannel, refused))
  {
  }

  /** With its settings complete, the Twitter block hands over exactly the
      expected post, once. */
  lemma TwitterStepReady(args: Args, config: Config, message: string, refused: set<Channel>)
    requires TwitterReady(config) && !args.dryrun
    ensures TwitterStep(args, config, message, refused) ==
              RunResult([ExpectedTweet(config, message)], TransportOutcome(TwitterChannel, refused))
  {
  }

  /** Whatever the inputs, a run hands over at most two things: never in a
      dry run, an e-mail only when requested and always first, a post only
      when requested and always last. */
  lemma RunTraceShape(args: Args, config: Config, stdin: seq<string>, refused: set<Channel>)
    ensures var r := Run(args, config, stdin, refused);
      && |r.sent| <= 2
      && (args.dryrun ==> r.sent == [])
      && (forall k :: 0 <= k < |r.sent| && r.sent[k].SentEmail? ==> args.email && k == 0)
      && (forall k :: 0 <= k < |r.sent| && r.sent[k].SentTweet? ==> args.twitter && k == |r.sent| - 1)
  {
    var message := Message(args, stdin);
    var e := if args.email then EmailStep(args, config, message, refused) else RunResult([], None);
    var r := Run(args, config, stdin, refused);
    if e.error.None? && args.twitter {
      var t := TwitterStep(args, config, message, refused);
      assert r.sent == e.sent + t.sent;
      forall k | 0 <= k < |r.sent|
        ensures r.sent[k].SentEmail? ==> args.email && k == 0
        ensures r.sent[k].SentTweet? ==> args.twitter && k == |r.sent| - 1
      {
        if k < |e.sent| {
          assert r.sent[k] == e.sent[k];
        } else {
          assert r.sent[k] == t.sent[k - |e.sent|];
        }
      }
    } else {
      assert r == e;
    }
  }

  /** With every requested channel's settings complete and no transport
      refusing, a run that is not a dry run hands over the e-mail (if
      requested) and then the post (if requested), and ends normally. */
  lemma CompleteRun(args: Args, config: Config, stdin: seq<string>)
    requires !args.dryrun && Ready(args, config)
    ensures var message := Message(args, stdin);
      Run(args, config, stdin, {}) == RunResult(
        (if args.email then [ExpectedEmail(args, config, message)] else [])
        + (if args.twitter then [ExpectedTweet(config, message)] else []),
        None)
  {
    var message := Message(args, stdin);
    if args.email {
      EmailStepReady(args, config, message, {});
    }
    if args.twitter {
      TwitterStepReady(args, config, message, {});
    }
  }

  /** An e-mail block that fails or skips its hand-over ends normally exactly
      when its settings are complete. */
  lemma EmailStepError(args: Args, config: Config, message: string)
    ensures EmailStep(args, config, message, {}).error == None <==> EmailReady(config)
  {
  }

  lemma TwitterStepError(args: Args, config: Config, message: string)
    ensures TwitterStep(args, config, message, {}).error == None <==> TwitterReady(config)
  {
  }

  /** When no transport refuses, a run ends without an exception exactly
      when every requested channel's settings are complete; a dry run is no
      exception. */
  lemma RunSucceedsIffReady(args: Args, config: Config, stdin: seq<string>)
    ensures Run(args, config, stdin, {}).error == None <==> Ready(args, config)
  {
    var message := Message(args, stdin);
    EmailStepError(args, config, message);
    TwitterStepError(args, config, message);
  }

  /** A dry run hands nothing over but raises exactly what the live run
      would raise while building notifiers and notifications. */
  lemma DryRunStillBuilds(args: Args, config: Config, stdin: seq<string>, refused: set<Channel>)
    requires args.dryrun
    ensures Run(args, config, stdin, refused).sent == []
    ensures Run(args, config, stdin, refused).error == Run(args.(dryrun := false), config, stdin, {}).error
  {
    var live := args.(dryrun := false);
    var message := Message(args, stdin);
    assert Message(live, stdin) == message;
    EmailStepError(args, config, message);
    EmailStepError(live, config, message);
    TwitterStepError(args, config, message);
    TwitterStepError(live, config, message);
  }

  /** A failing e-mail builder ends the run before anything is handed over,
      whether or not Twitter was requested. */
  lemma EmailBuildFailureEndsRun(args: Args, config: Config, stdin: seq<string>, refused: set<Channel>)
    requires args.email && BuildEmailNotifier(config).Err?
    ensures Run(args, config, stdin, refused) == RunResult([], Some(BuildEmailNotifier(config).error))
  {
  }

  /** A failing Twitter builder after a delivered e-mail: the e-mail has gone
      out and the run ends with `FailedToBuildTwitterNotifier`. */
  lemma TwitterBuildFailureAfterEmail(args: Args, config: Config, stdin: seq<string>)
    requires !args.dryrun && args.email && args.twitter
    requires EmailReady(config) && !HasTwitterOptions(config)
    ensures Run(args, config, stdin, {}) ==
              RunResult([ExpectedEmail(args, config, Message(args, stdin))], Some(FailedToBuildTwitterNotifier))
  {
    EmailStepReady(args, config, Message(args, stdin), {});
  }

  /** A mail transport that raises ends the run after its hand-over; the
      post is never attempted. */
  lemma EmailTransportFailureEndsRun(args: Args, config: Config, stdin: seq<string>, refused: set<Channel>)
    requires !args.dryrun && args.email && EmailReady(config) && EmailChannel in refused
    ensures Run(args, config, stdin, refused) ==
              RunResult([ExpectedEmail(args, config, Message(args, stdin))], Some(TransportFailed(EmailChannel)))
  {
    EmailStepReady(args, config, Message(args, stdin), refused);
  }

  /** The e-mail subject comes from the arguments alone: lines read from
      standard input never change it, and an empty message argument leaves
      the e-mail without a Subject header even when standard input supplied
      the text. */
  lemma SubjectIgnoresStdin(args: Args, config: Config, stdin1: seq<string>, stdin2: seq<string>)
    requires !args.dryrun && args.email && EmailReady(config)
    ensures |Run(args, config, stdin1, {}).sent| >= 1 && |Run(args, config, stdin2, {}).sent| >= 1
    ensures Run(args, config, stdin1, {}).sent[0].submission.message.subjectHeader
         == Run(args, config, stdin2, {}).sent[0].submission.message.subjectHeader
    ensures args.subject == "" && args.message == "" ==>
              Run(args, config, stdin1, {}).sent[0].submission.message.subjectHeader == None
  {
    EmailStepReady(args, config, Message(args, stdin1), {});
    EmailStepReady(args, config, Message(args, stdin2), {});
  }
}
