/** The Twitter channel: a notification renders to one status text that
    mentions every recipient before the content; the notifier hands that
    text, with its four API credentials, to the posting client. */
module Twitter {
  import opened Text

  datatype TwitterNotification = TwitterNotification(recipients: seq<string>, content: string)

  /** A recipient's handle as a mention. */
  function Mention(handle: string): string
  {
    "@" + handle
  }

  /** Every recipient as a mention, in order. */
  function Mentions(recipients: seq<string>): (ms: seq<string>)
    ensures |ms| == |recipients|
    ensures forall k :: 0 <= k < |ms| ==> ms[k] == Mention(recipients[k])
  {
    seq(|recipients|, k requires 0 <= k < |recipients| => Mention(recipients[k]))
  }

  /** The status text: the mentions separated by ", ", then " - ", then the
      content. */
  function Payload(n: TwitterNotification): (p: string)
    ensures |p| >= 3 + |n.content|
    ensures p[|p| - |n.content| - 3..] == " - " + n.content
    ensures |n.recipients| == 0 ==> p == " - " + n.content
    ensures |n.recipients| > 0 ==> p[0] == '@'
  {
    Join(", ", Mentions(n.recipients)) + " - " + n.content
  }

  /** An independent reading of the mention list, built from the back: each
      mention after the first is introduced by ", @". */
  function MentionList(recipients: seq<string>): string
  {
    if |recipients| == 0 then ""
    else if |recipients| == 1 then "@" + recipients[0]
    else MentionList(recipients[..|recipients| - 1]) + ", @" + recipients[|recipients| - 1]
  }

  /** The payload is the reference mention list, " - " and the content. */
  lemma {:induction false} PayloadMatchesMentionList(n: TwitterNotification)
    ensures Payload(n) == MentionList(n.recipients) + " - " + n.content
  {
    MentionsJoin(n.recipients);
  }

  lemma {:induction false} MentionsJoin(recipients: seq<string>)
    ensures Join(", ", Mentions(recipients)) == MentionList(recipients)
    decreases |recipients|
  {
    var n := |recipients|;
    if n >= 2 {
      var front := recipients[..n - 1];
      assert Mentions(recipients) == Mentions(front) + [Mention(recipients[n - 1])];
      JoinSnoc(", ", Mentions(front), Mention(recipients[n - 1]));
      MentionsJoin(front);
    }
  }

  /** One recipient: `@a - content`. */
  lemma OneRecipient(a: string, content: string)
    ensures Payload(TwitterNotification([a], content)) == "@" + a + " - " + content
  {
  }

  /** Two recipients: `@a, @b - content`. */
  lemma TwoRecipients(a: string, b: string, content: string)
    ensures Payload(TwitterNotification([a, b], content)) == "@" + a + ", @" + b + " - " + content
  {
    PayloadMatchesMentionList(TwitterNotification([a, b], content));
    assert [a, b][..1] == [a];
  }

  lemma {:induction false} MentionsLength(recipients: seq<string>)
    ensures TotalLength(Mentions(recipients)) == TotalLength(recipients) + |recipients|
    decreases |recipients|
  {
    if |recipients| > 0 {
      assert Mentions(recipients)[1..] == Mentions(recipients[1..]);
      MentionsLength(recipients[1..]);
    }
  }

  /** With n >= 1 recipients the text has one '@' per recipient, two
      characters per separator, three for " - ", and the content. */
  lemma PayloadLength(n: TwitterNotification)
    requires |n.recipients| >= 1
    ensures |Payload(n)| == TotalLength(n.recipients) + |n.recipients|
                           + 2 * (|n.recipients| - 1) + 3 + |n.content|
  {
    JoinLength(", ", Mentions(n.recipients));
    MentionsLength(n.recipients);
  }

  /** The mentions can be read back from the front of the text when no
      handle contains a comma. */
  lemma MentionsRecoverable(n: TwitterNotification)
    requires |n.recipients| >= 1 && CommaFree(n.recipients)
    ensures var p := Payload(n);
      SplitList(p[..|p| - |n.content| - 3]) == Mentions(n.recipients)
  {
    var ms := Mentions(n.recipients);
    assert CommaFree(ms) by {
      forall k | 0 <= k < |ms|
        ensures ',' !in ms[k]
      {
        assert ',' !in n.recipients[k];
        assert ms[k] == "@" + n.recipients[k];
      }
    }
    var j := Join(", ", ms);
    var p := Payload(n);
    assert p == j + (" - " + n.content);
    assert |p| - |n.content| - 3 == |j|;
    assert p[..|j|] == j;
    SplitJoin(ms);
  }

  /** The four API credentials a `TwitterNotifier` owns. */
  datatype TwitterNotifier = TwitterNotifier(
    consumerKey: string,
    consumerSecret: string,
    accessKey: string,
    accessSecret: string)

  /** One call of the posting client: the credentials and the status text. */
  datatype Tweet = Tweet(
    consumerKey: string,
    consumerSecret: string,
    accessKey: string,
    accessSecret: string,
    message: string)

  /** `TwitterNotifier.send`: the four credentials go to the client under
      their own names, with the notification's rendered text. */
  function Send(notifier: TwitterNotifier, n: TwitterNotification): (t: Tweet)
    ensures t.consumerKey == notifier.consumerKey && t.consumerSecret == notifier.consumerSecret
    ensures t.accessKey == notifier.accessKey && t.accessSecret == notifier.accessSecret
    ensures t.message == Payload(n)
  {
    Tweet(notifier.consumerKey, notifier.consumerSecret, notifier.accessKey, notifier.accessSecret, Payload(n))
  }
}
