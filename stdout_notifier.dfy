/**
 * The console notifier (`StdOutNotifier`): it has no state and prints a
 * fixed sequence of lines per notification. Standard output is modelled as
 * the list of lines written to it.
 */
module StdOutNotifier {
  import opened Notifications
  import opened Format

  /** Standard output, as the lines printed so far. */
  class Stdout {
    var lines: seq<string>

    constructor ()
      ensures lines == []
    {
      lines := [];
    }

    /** `println!`. */
    method PrintLine(line: string)
      modifies this
      ensures lines == old(lines) + [line]
    {
      lines := lines + [line];
    }
  }

  function HeaderLine(account: string, backend: string, count: nat): string
  {
    "Account " + account + " (" + backend + ") received " + NatToString(count) + " new email(s)"
  }

  function EmailLine(e: EmailInfo): string
  {
    "    Sender=" + e.sender + " Subject=" + e.subject
  }

  function EmailLines(emails: seq<EmailInfo>): (r: seq<string>)
    ensures |r| == |emails|
  {
    if emails == [] then [] else [EmailLine(emails[0])] + EmailLines(emails[1..])
  }

  /** Everything the console notifier prints for one notification. */
  function StdOutLines(n: Notification): (r: seq<string>)
    ensures n.NewEmail? ==> |r| == 1 + |n.emails|
    ensures (n.AccountLoggedOut? || IsErrorKind(n)) ==> |r| == 1
    ensures (n.ProxyApplied? || n.OtherKind?) ==> r == []
  {
    match n
    case NewEmail(account, backend, emails) => [HeaderLine(account, backend, |emails|)] + EmailLines(emails)
    case AccountLoggedOut(account) => ["Account " + account + " Logged out or Session Expired"]
    case AccountError(account, error) => ["Account " + account + " ran into an error: " + error]
    case ProxyApplied(_, _) => []
    case ConfigError(error) => ["Configuration error: " + error]
    case Error(error) => ["An error occurred: " + error]
    case OtherKind(_) => []
  }

  lemma {:induction false} EmailLinesAppend(a: seq<EmailInfo>, b: seq<EmailInfo>)
    ensures EmailLines(a + b) == EmailLines(a) + EmailLines(b)
    decreases |a|
  {
    if a == [] {
      assert a + b == b;
    } else {
      assert (a + b)[0] == a[0];
      assert (a + b)[1..] == a[1..] + b;
      EmailLinesAppend(a[1..], b);
    }
  }

  /** One line per email, in the order of the emails. */
  lemma {:induction false} EmailLinesInOrder(emails: seq<EmailInfo>)
    ensures |EmailLines(emails)| == |emails|
    ensures forall i :: 0 <= i < |emails| ==> EmailLines(emails)[i] == EmailLine(emails[i])
    decreases |emails|
  {
    if emails != [] {
      EmailLinesInOrder(emails[1..]);
    }
  }

  /**
   * New mail prints a header naming account, backend and count, then one line
   * per email in order; a logout prints one fixed line; each error kind prints
   * one line holding the error text; every other kind prints nothing.
   */
  lemma StdOutLinesShape(n: Notification)
    ensures n.NewEmail? ==>
      && |StdOutLines(n)| == 1 + |n.emails|
      && StdOutLines(n)[0] == HeaderLine(n.account, n.backend, |n.emails|)
      && forall i :: 0 <= i < |n.emails| ==> StdOutLines(n)[1 + i] == EmailLine(n.emails[i])
    ensures n.AccountLoggedOut? ==> StdOutLines(n) == ["Account " + n.account + " Logged out or Session Expired"]
    ensures IsErrorKind(n) ==> |StdOutLines(n)| == 1 && Contains(StdOutLines(n)[0], n.error)
    ensures (n.ProxyApplied? || n.OtherKind?) ==> StdOutLines(n) == []
  {
    match n
    case NewEmail(_, _, emails) =>
      EmailLinesInOrder(emails);
    case AccountError(account, error) =>
      ContainsMiddle("Account " + account + " ran into an error: ", error, "");
      assert StdOutLines(n)[0] == "Account " + account + " ran into an error: " + error + "";
    case ConfigError(error) =>
      ContainsMiddle("Configuration error: ", error, "");
      assert StdOutLines(n)[0] == "Configuration error: " + error + "";
    case Error(error) =>
      ContainsMiddle("An error occurred: ", error, "");
      assert StdOutLines(n)[0] == "An error occurred: " + error + "";
    case _ =>
  }

  /** The header line states the number of emails, readable back in decimal. */
  lemma HeaderLineCount(account: string, backend: string, emails: seq<EmailInfo>)
    ensures exists count: string ::
      && AllDigits(count)
      && ParseNat(count) == |emails|
      && HeaderLine(account, backend, |emails|) == "Account " + account + " (" + backend + ") received " + count + " new email(s)"
  {
    ParseNatToString(|emails|);
    var count := NatToString(|emails|);
    assert HeaderLine(account, backend, |emails|) == "Account " + account + " (" + backend + ") received " + count + " new email(s)";
  }

  /** `StdOutNotifier::notify`: print the lines for `n`, the emails one by one. */
  method Notify(n: Notification, out: Stdout)
    modifies out
    ensures out.lines == old(out.lines) + StdOutLines(n)
  {
    match n
    case NewEmail(account, backend, emails) =>
      out.PrintLine(HeaderLine(account, backend, |emails|));
      for i := 0 to |emails|
        invariant out.lines == old(out.lines) + [HeaderLine(account, backend, |emails|)] + EmailLines(emails[..i])
      {
        EmailLinesAppend(emails[..i], [emails[i]]);
        assert emails[..i + 1] == emails[..i] + [emails[i]];
        out.PrintLine(EmailLine(emails[i]));
      }
      assert emails[..|emails|] == emails;
    case AccountLoggedOut(account) =>
      out.PrintLine("Account " + account + " Logged out or Session Expired");
    case AccountError(account, error) =>
      out.PrintLine("Account " + account + " ran into an error: " + error);
    case ProxyApplied(_, _) =>
    case ConfigError(error) =>
      out.PrintLine("Configuration error: " + error);
    case Error(error) =>
      out.PrintLine("An error occurred: " + error);
    case OtherKind(_) =>
  }
}
