/**
 * The message an HTTP push notifier hands to its worker (`NTFYNotification`,
 * `UPNotification`), the translation from upstream notifications, and how
 * the worker renders a message into a title, an optional body and an urgency.
 * The ntfy and the unified push notifier share all of this.
 */
module PushMessages {
  import opened Wrappers
  import opened Notifications
  import opened Format

  /** The mailbox message: an owned copy of the data of one forwarded notification. */
  datatype PushMessage =
    | NewEmail(account: string, backend: string, emails: seq<EmailInfo>)
    | LoggedOut(account: string)
    | AccountError(account: string, error: string)
    | ConfigError(error: string)
    | Error(error: string)

  /** `info_notification` versus `error_notification`. */
  datatype Urgency = InfoLevel | ErrorLevel

  datatype Rendered = Rendered(title: string, body: Option<string>, urgency: Urgency)

  /** The upstream notification a message was made from. */
  function Restore(m: PushMessage): (n: Notification)
    ensures IsForwarded(n)
  {
    match m
    case NewEmail(account, backend, emails) => Notification.NewEmail(account, backend, emails)
    case LoggedOut(account) => AccountLoggedOut(account)
    case AccountError(account, error) => Notification.AccountError(account, error)
    case ConfigError(error) => Notification.ConfigError(error)
    case Error(error) => Notification.Error(error)
  }

  /**
   * The `match` at the top of `notify`: the five forwarded kinds become a
   * message carrying the same data, every other kind yields nothing.
   */
  function Translate(n: Notification): (r: Option<PushMessage>)
    ensures r.Some? <==> IsForwarded(n)
    ensures r.Some? ==> Restore(r.value) == n
  {
    match n
    case NewEmail(account, backend, emails) => Some(PushMessage.NewEmail(account, backend, emails))
    case AccountLoggedOut(account) => Some(LoggedOut(account))
    case AccountError(account, error) => Some(PushMessage.AccountError(account, error))
    case ConfigError(error) => Some(PushMessage.ConfigError(error))
    case Error(error) => Some(PushMessage.Error(error))
    case ProxyApplied(_, _) => None
    case OtherKind(_) => None
  }

  /** Every message is the translation of exactly the notification it restores to. */
  lemma TranslateRestore(m: PushMessage)
    ensures Translate(Restore(m)) == Some(m)
  {
  }

  /** Translation is one-to-one: different forwarded notifications give different messages. */
  lemma TranslateInjective(n1: Notification, n2: Notification)
    requires Translate(n1).Some? && Translate(n1) == Translate(n2)
    ensures n1 == n2
  {
  }

  /** One body line per email: the sender in bold, then the subject. */
  function EmailLine(e: EmailInfo): string
  {
    "**" + e.sender + "**: " + e.subject + "\n"
  }

  /** The body of a new-email push: the lines of all emails, in order. */
  function Body(emails: seq<EmailInfo>): (r: string)
    ensures emails == [] <==> r == ""
    ensures r != "" ==> r[|r| - 1] == '\n'
  {
    if emails == [] then "" else EmailLine(emails[0]) + Body(emails[1..])
  }

  /** The body of a concatenation is the concatenation of the bodies. */
  lemma {:induction false} BodyAppend(a: seq<EmailInfo>, b: seq<EmailInfo>)
    ensures Body(a + b) == Body(a) + Body(b)
    decreases |a|
  {
    if a == [] {
      assert a + b == b;
    } else {
      assert (a + b)[0] == a[0];
      assert (a + b)[1..] == a[1..] + b;
      BodyAppend(a[1..], b);
    }
  }

  predicate SingleLine(e: EmailInfo)
  {
    '\n' !in e.sender && '\n' !in e.subject
  }

  /** When no sender or subject spans lines, the body has exactly one line per email. */
  lemma {:induction false} BodyLineCount(emails: seq<EmailInfo>)
    requires forall i :: 0 <= i < |emails| ==> SingleLine(emails[i])
    ensures NewlineCount(Body(emails)) == |emails|
    decreases |emails|
  {
    if emails != [] {
      var e := emails[0];
      assert SingleLine(e);
      NewlineCountNone("**" + e.sender + "**: " + e.subject);
      NewlineCountAppend("**" + e.sender + "**: " + e.subject, "\n");
      NewlineCountAppend(EmailLine(e), Body(emails[1..]));
      BodyLineCount(emails[1..]);
    }
  }

  /** The worked example of two emails. */
  lemma BodyOfTwoEmails()
    ensures Body([EmailInfo("a@x", "hi"), EmailInfo("b@y", "yo")]) == "**a@x**: hi\n**b@y**: yo\n"
  {
  }

  /** Pushing the line of the next email extends the body of the emails before it. */
  lemma BodyStep(emails: seq<EmailInfo>, i: nat)
    requires i < |emails|
    ensures Body(emails[..i + 1]) == Body(emails[..i]) + EmailLine(emails[i])
  {
    BodyAppend(emails[..i], [emails[i]]);
    assert emails[..i + 1] == emails[..i] + [emails[i]];
    assert Body([emails[i]]) == EmailLine(emails[i]) + Body([]);
  }

  /**
   * The `for` loop of `thread_loop` that pushes one line per email onto an
   * initially empty string.
   */
  method BuildBody(emails: seq<EmailInfo>) returns (body: string)
    ensures body == Body(emails)
    ensures emails == [] <==> body == ""
  {
    body := "";
    for i := 0 to |emails|
      invariant body == Body(emails[..i])
    {
      BodyStep(emails, i);
      body := body + EmailLine(emails[i]);
    }
    assert emails[..|emails|] == emails;
  }

  /** The title of a new-email push; the doubled closing parenthesis is part of the wire text. */
  function NewEmailTitle(account: string, count: nat): (r: string)
    ensures |r| >= |account| + |" new message(s))"|
    ensures r[..|account|] == account
    ensures r[|r| - |" new message(s))"|..] == " new message(s))"
  {
    var r := account + " has " + NatToString(count) + " new message(s))";
    assert r == (account + " has " + NatToString(count)) + " new message(s))";
    r
  }

  /** Title, body and urgency the worker gives each message. */
  function Render(m: PushMessage): (r: Rendered)
    ensures r.urgency == ErrorLevel <==> IsErrorKind(Restore(m))
    ensures r.body.None? <==> m.LoggedOut?
    ensures m.NewEmail? ==> r.body == Some(Body(m.emails))
    ensures (m.AccountError? || m.ConfigError? || m.Error?) ==> r.body == Some(m.error)
  {
    match m
    case NewEmail(account, _, emails) => Rendered(NewEmailTitle(account, |emails|), Some(Body(emails)), InfoLevel)
    case LoggedOut(account) => Rendered(account + " logged out or session expired", None, InfoLevel)
    case AccountError(account, error) => Rendered(account + " encountered an error", Some(error), ErrorLevel)
    case ConfigError(error) => Rendered("Server Config Error", Some(error), ErrorLevel)
    case Error(error) => Rendered("Server Error", Some(error), ErrorLevel)
  }

  /**
   * The new-email title names the account and states the number of emails in
   * decimal; an empty batch reads "0" and has an empty body.
   */
  lemma NewEmailRendering(account: string, backend: string, emails: seq<EmailInfo>)
    ensures var r := Render(PushMessage.NewEmail(account, backend, emails));
      exists count: string ::
        && AllDigits(count)
        && ParseNat(count) == |emails|
        && r.title == account + " has " + count + " new message(s))"
    ensures emails == [] ==> Render(PushMessage.NewEmail(account, backend, emails)) == Rendered(account + " has 0 new message(s))", Some(""), InfoLevel)
  {
    var count := NatToString(|emails|);
    ParseNatToString(|emails|);
    TitleSpelledOut(account, |emails|);
    assert Render(PushMessage.NewEmail(account, backend, emails)).title == NewEmailTitle(account, |emails|);
    if emails == [] {
      EmptyBatchRendering(account, backend);
    }
  }

  /** An empty batch: title with count "0", empty body, info level. */
  lemma EmptyBatchRendering(account: string, backend: string)
    ensures Render(PushMessage.NewEmail(account, backend, [])) == Rendered(account + " has 0 new message(s))", Some(""), InfoLevel)
  {
    var m := PushMessage.NewEmail(account, backend, []);
    ZeroCountTitle(account);
    assert Render(m) == Rendered(NewEmailTitle(account, 0), Some(Body([])), InfoLevel);
  }

  /** The title of an empty batch, spelled out. */
  lemma ZeroCountTitle(account: string)
    ensures NewEmailTitle(account, 0) == account + " has 0 new message(s))"
  {
    assert NatToString(0) == "0";
    ZeroCountSpelling();
    TitleSpelledOut(account, 0);
    assert account + " has " + "0" + " new message(s))" == account + (" has " + "0" + " new message(s))");
  }

  /** The decimal "0" sits between the two fixed parts of the title. */
  lemma ZeroCountSpelling()
    ensures " has " + "0" + " new message(s))" == " has 0 new message(s))"
  {
  }

  /** The title is the account, " has ", the decimal count and " new message(s))". */
  lemma TitleSpelledOut(account: string, count: nat)
    ensures NewEmailTitle(account, count) == account + " has " + NatToString(count) + " new message(s))"
  {
  }
}
