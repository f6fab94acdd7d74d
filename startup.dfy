/**
 * Decisions `main.rs` takes at start-up and when managing accounts: the
 * configuration checks and the building of the multiplexer, the selection of
 * accounts to delete, which configured accounts need credentials, and the
 * bounded password and TOTP prompts.
 *
 * The account-polling engine (`Observer`) is modelled as a map from email to
 * its backend name and logged-in flag, plus the answers it gives; user input
 * is a sequence of typed lines.
 */
module Startup {
  import opened Wrappers
  import opened Notifiers

  /** `SecretsType`: where the encryption key is kept. */
  datatype SecretsType = Plain | Keyring

  /** An `[[account]]` entry of the configuration file. */
  datatype ConfigAccount = ConfigAccount(email: string, backend: string)

  /** The parts of the configuration file these decisions read. */
  datatype Config = Config(
    secrets: SecretsType,
    acceptPlainSecretsInsecure: bool,
    notifiers: seq<NotifiersType>,
    accounts: Option<seq<ConfigAccount>>)

  const PlainSecretsRefused := "Plain unencrypted secrets storage, please consent to the risks by setting `accept_plain_secrets_insecure=true` in your config file"
  const NoNotifiers := "No notifiers specified"

  /** Plain-text secrets were chosen without consenting to the risk. */
  predicate MissingConsent(config: Config)
  {
    config.secrets == Plain && !config.acceptPlainSecretsInsecure
  }

  /**
   * The checks of `main` and the building of the multiplexer: refuse plain
   * secrets without consent (before any notifier is made), refuse an empty
   * notifier list, then make one notifier per configured entry, in order.
   * `made` counts the calls of `new_notifier`.
   */
  method BuildNotifier(config: Config) returns (r: Result<NotifierMultiplexer>, made: nat)
    ensures MissingConsent(config) ==> r == Failure(PlainSecretsRefused) && made == 0
    ensures !MissingConsent(config) && config.notifiers == [] ==> r == Failure(NoNotifiers) && made == 0
    ensures r.Success? <==> !MissingConsent(config) && config.notifiers != []
    ensures r.Success? ==>
      && fresh(r.value)
      && made == |config.notifiers|
      && |r.value.notifiers| == |config.notifiers|
      && forall i :: 0 <= i < |config.notifiers| ==> r.value.notifiers[i] == NewNotifier(config.notifiers[i]).value
  {
    made := 0;
    if MissingConsent(config) {
      return Failure(PlainSecretsRefused), made;
    }
    if config.notifiers == [] {
      return Failure(NoNotifiers), made;
    }
    var builder := new NotifierMultiplexerBuilder();
    for i := 0 to |config.notifiers|
      invariant made == i
      invariant |builder.notifiers| == i
      invariant forall j :: 0 <= j < i ==> builder.notifiers[j] == NewNotifier(config.notifiers[j]).value
    {
      var notifier := NewNotifier(config.notifiers[i]);
      made := made + 1;
      builder.WithNotifier(notifier.value);
    }
    var multiplexer := builder.Build();
    r := Success(multiplexer);
  }

  /** What the engine knows of an account. */
  datatype ObservedAccount = ObservedAccount(backend: string, loggedIn: bool)

  /**
   * The engine's `Observer`: its accounts, the backend names it can log in
   * with, and the errors it reports when adding (`addFailures`) or removing
   * (`removeFailures`) a given account fails, by email.
   */
  class Observer {
    var accounts: map<string, ObservedAccount>
    const backends: set<string>
    const addFailures: map<string, string>
    const removeFailures: map<string, string>

    constructor (accounts: map<string, ObservedAccount>, backends: set<string>,
                 addFailures: map<string, string>, removeFailures: map<string, string>)
      ensures this.accounts == accounts && this.backends == backends
      ensures this.addFailures == addFailures && this.removeFailures == removeFailures
    {
      this.accounts := accounts;
      this.backends := backends;
      this.addFailures := addFailures;
      this.removeFailures := removeFailures;
    }

    /** `remove_account`: log out and forget the account, or report the engine's error. */
    method RemoveAccount(email: string) returns (r: Result<()>)
      modifies this
      ensures email in removeFailures ==> r == Failure(removeFailures[email]) && accounts == old(accounts)
      ensures email !in removeFailures ==> r == Success(()) && accounts == old(accounts) - {email}
    {
      if email in removeFailures {
        return Failure(removeFailures[email]);
      }
      accounts := accounts - {email};
      r := Success(());
    }

    /** `add_account` with a freshly logged-in account. */
    method AddAccount(email: string, backend: string) returns (r: Result<()>)
      modifies this
      ensures email in addFailures ==> r == Failure(addFailures[email]) && accounts == old(accounts)
      ensures email !in addFailures ==> r == Success(()) && accounts == old(accounts)[email := ObservedAccount(backend, true)]
    {
      if email in addFailures {
        return Failure(addFailures[email]);
      }
      accounts := accounts[email := ObservedAccount(backend, true)];
      r := Success(());
    }
  }

  /** The filter of `delete_accounts`: with a list, the observed accounts it names; without, all of them. */
  function SelectForDeletion(observed: map<string, ObservedAccount>, configured: Option<seq<ConfigAccount>>): (r: set<string>)
    ensures forall e :: e in r <==>
      e in observed && (configured.None? || exists a :: a in configured.value && a.email == e)
  {
    if configured.None? then observed.Keys
    else set e | e in observed && exists a :: a in configured.value && a.email == e
  }

  /**
   * `delete_accounts`: remove every selected account, stopping at the first
   * removal the engine refuses. It succeeds exactly when no selected account
   * is refused; only selected accounts are ever removed, and the others keep
   * their state. A failure names a selected account the engine refused and
   * still holds, with the engine's reason.
   */
  method DeleteAccounts(observer: Observer, configured: Option<seq<ConfigAccount>>) returns (r: Result<()>)
    modifies observer
    ensures r.Success? <==> SelectForDeletion(old(observer.accounts), configured) * observer.removeFailures.Keys == {}
    ensures r.Success? ==> observer.accounts == old(observer.accounts) - SelectForDeletion(old(observer.accounts), configured)
    ensures observer.accounts.Keys <= old(observer.accounts).Keys
    ensures old(observer.accounts).Keys - observer.accounts.Keys <= SelectForDeletion(old(observer.accounts), configured)
    ensures forall e :: e in observer.accounts ==> observer.accounts[e] == old(observer.accounts)[e]
    ensures r.Failure? ==> exists e ::
      && e in SelectForDeletion(old(observer.accounts), configured)
      && e in observer.removeFailures && e in observer.accounts
      && r.error == "Failed to delete account " + e + ": " + observer.removeFailures[e]
  {
    var selected := SelectForDeletion(observer.accounts, configured);
    var pending := selected;
    while pending != {}
      invariant pending <= selected
      invariant selected - pending !! observer.removeFailures.Keys
      invariant observer.accounts == old(observer.accounts) - (selected - pending)
      decreases pending
    {
      var email :| email in pending;
      var removed := observer.RemoveAccount(email);
      if removed.Failure? {
        assert email in selected * observer.removeFailures.Keys;
        return Failure("Failed to delete account " + email + ": " + removed.error);
      }
      pending := pending - {email};
    }
    r := Success(());
  }

  /**
   * The decision of `configure_accounts` for one configured account: an
   * account the engine already has under another backend is an error;
   * otherwise credentials are asked for when the account is absent or logged out.
   */
  function NeedsPrompt(observed: map<string, ObservedAccount>, account: ConfigAccount): (r: Result<bool>)
    ensures r.Failure? <==> account.email in observed && observed[account.email].backend != account.backend
    ensures r.Success? ==> (r.value <==> account.email !in observed || !observed[account.email].loggedIn)
  {
    if account.email in observed then
      if observed[account.email].backend != account.backend then
        Failure("Account " + account.email + " already in observer, but with different backend please remove first.")
      else Success(!observed[account.email].loggedIn)
    else Success(true)
  }

  /** The index of the first non-empty entry, if any. */
  function FirstNonEmpty(input: seq<string>): (r: Option<nat>)
    ensures r.Some? ==> r.value < |input| && input[r.value] != "" && forall j :: 0 <= j < r.value ==> input[j] == ""
    ensures r.None? ==> forall j :: 0 <= j < |input| ==> input[j] == ""
  {
    if input == [] then None
    else if input[0] != "" then Some(0)
    else
      var rest := FirstNonEmpty(input[1..]);
      if rest.Some? then Some(rest.value + 1) else None
  }

  /**
   * The password loop of `prompt_account_auth`: read entries until one is not
   * empty. `None` when input runs out first. `used` counts the entries read.
   */
  method PromptPassword(input: seq<string>) returns (password: Option<string>, used: nat)
    ensures FirstNonEmpty(input).Some? ==>
      password == Some(input[FirstNonEmpty(input).value]) && used == FirstNonEmpty(input).value + 1
    ensures FirstNonEmpty(input).None? ==> password.None? && used == |input|
  {
    used := 0;
    while true
      invariant used <= |input|
      invariant forall j :: 0 <= j < used ==> input[j] == ""
      decreases |input| - used
    {
      if used == |input| {
        return None, used;
      }
      var entry := input[used];
      used := used + 1;
      if entry == "" {
        continue;
      }
      return Some(entry), used;
    }
  }

  /** How many TOTP codes may be tried. */
  const TotpAttempts: nat := 5

  /** `trim_end_matches('\n')`: drop every trailing line feed. */
  function TrimEndNewlines(line: string): (r: string)
    ensures |r| <= |line| && r == line[..|r|]
    ensures r == [] || r[|r| - 1] != '\n'
    ensures forall j :: |r| <= j < |line| ==> line[j] == '\n'
  {
    if line != [] && line[|line| - 1] == '\n' then TrimEndNewlines(line[..|line| - 1]) else line
  }

  /** The line read by attempt `j`: the next input line, or nothing at end of input. */
  function LineAt(input: seq<string>, j: nat): string
  {
    if j < |input| then input[j] else ""
  }

  /** Attempt `j` submits a non-empty code that the account accepts. */
  predicate TotpSucceedsAt(input: seq<string>, accepted: set<string>, j: nat)
  {
    var code := TrimEndNewlines(LineAt(input, j));
    code != "" && code in accepted
  }

  /** One of the five attempts over `input` submits a non-empty, accepted code. */
  predicate TotpPasses(input: seq<string>, accepted: set<string>)
  {
    exists j :: 0 <= j < TotpAttempts && TotpSucceedsAt(input, accepted, j)
  }

  /** Whether each of the five attempts over `input` submits a non-empty, accepted code. */
  function TotpOutcomes(input: seq<string>, accepted: set<string>): (r: seq<bool>)
    ensures |r| == TotpAttempts
    ensures forall j :: 0 <= j < TotpAttempts ==> (r[j] <==> TotpSucceedsAt(input, accepted, j))
  {
    seq(TotpAttempts, j requires 0 <= j => TotpSucceedsAt(input, accepted, j))
  }

  /**
   * The number of attempts a loop over `outcomes` makes from attempt `j` on:
   * up to and including the first successful one, or all that remain.
   */
  function AttemptsFrom(outcomes: seq<bool>, j: nat): (r: nat)
    requires j < |outcomes|
    ensures j < r <= |outcomes|
    decreases |outcomes| - j
  {
    if outcomes[j] || j == |outcomes| - 1 then j + 1
    else AttemptsFrom(outcomes, j + 1)
  }

  /** Every attempt before the last one made fails; stopping early means the last one succeeded. */
  lemma {:induction false} AttemptsFromStop(outcomes: seq<bool>, j: nat)
    requires j < |outcomes|
    ensures forall k :: j <= k < AttemptsFrom(outcomes, j) - 1 ==> !outcomes[k]
    ensures AttemptsFrom(outcomes, j) < |outcomes| ==> outcomes[AttemptsFrom(outcomes, j) - 1]
    decreases |outcomes| - j
  {
    if !(outcomes[j] || j == |outcomes| - 1) {
      AttemptsFromStop(outcomes, j + 1);
    }
  }

  /**
   * The TOTP loop of `prompt_account_auth`: at most five attempts, one line
   * each; an empty code or a rejected one uses up an attempt. `accepted` are
   * the codes the account would accept. The result says whether the account
   * is past TOTP; `attempts` counts the attempts made.
   */
  method PromptTotp(input: seq<string>, accepted: set<string>) returns (ok: bool, attempts: nat)
    ensures 1 <= attempts <= TotpAttempts
    ensures ok <==> TotpPasses(input, accepted)
    ensures ok ==> TotpSucceedsAt(input, accepted, attempts - 1)
    ensures forall j :: 0 <= j < attempts - 1 ==> !TotpSucceedsAt(input, accepted, j)
    ensures !ok ==> attempts == TotpAttempts
    ensures attempts == AttemptsFrom(TotpOutcomes(input, accepted), 0)
  {
    ok := false;
    attempts := 0;
    for attempt := 0 to TotpAttempts
      invariant attempts == attempt
      invariant forall j :: 0 <= j < attempt ==> !TotpSucceedsAt(input, accepted, j)
    {
      var line := LineAt(input, attempt);
      var code := TrimEndNewlines(line);
      attempts := attempts + 1;
      if code == "" || code !in accepted {
        assert !TotpSucceedsAt(input, accepted, attempt);
        continue;
      }
      assert TotpSucceedsAt(input, accepted, attempt);
      ok := true;
      break;
    }
    if !ok {
      assert forall j :: 0 <= j < TotpAttempts ==> !TotpSucceedsAt(input, accepted, j);
    }
    AttemptsFromStop(TotpOutcomes(input, accepted), 0);
  }

  /** The engine's answer to a login with the typed password. */
  datatype LoginOutcome =
    | LoggedIn
      /** Logged in, but a TOTP code is needed; these codes would be accepted. */
    | AwaitingTotp(accepted: set<string>)
    | CaptchaRequested
    | LoginFailed(reason: string)

  /**
   * The login was accepted: either outright, or a TOTP code among the five
   * lines after the password entry (the one at `passwordAt`) was accepted.
   */
  predicate LoginPasses(input: seq<string>, passwordAt: nat, login: LoginOutcome)
    requires passwordAt < |input|
  {
    || login.LoggedIn?
    || (login.AwaitingTotp? && TotpPasses(input[passwordAt + 1..], login.accepted))
  }

  /** The entries the TOTP loop reads: one per attempt, and none past the end of input. */
  function TotpEntriesRead(input: seq<string>, accepted: set<string>): (r: nat)
    ensures r <= |input| && r <= TotpAttempts
  {
    var attempts := AttemptsFrom(TotpOutcomes(input, accepted), 0);
    if attempts <= |input| then attempts else |input|
  }

  /** The ways `prompt_account_auth` fails. */
  datatype AuthError =
    | UnknownBackend(backend: string)
    | PasswordUnreadable
    | CaptchaRequired(email: string)
    | LoginRefused(email: string, reason: string)
    | TotpExhausted
    | AddRefused(email: string, reason: string)

  /** The message `prompt_account_auth` gives for each failure. */
  function AuthErrorText(e: AuthError): string
  {
    match e
    case UnknownBackend(backend) => "Could not locate backed with name '" + backend + "'"
    case PasswordUnreadable => "Failed to read password"
    case CaptchaRequired(email) => "Account " + email + " requested captcha validation, this is not supported in CLI:"
    case LoginRefused(email, reason) => "Failed to login account " + email + ": " + reason
    case TotpExhausted => "Too many failed TOTP attempts"
    case AddRefused(email, reason) => "Failed to add account " + email + ": " + reason
  }

  /** What `prompt_account_auth` answers, with the number of input entries it read. */
  datatype AuthAnswer = AuthAnswer(error: Option<AuthError>, used: nat) {
    /** The answer as the `anyhow::Result` the caller sees. */
    function Returned(): Result<()>
    {
      if error.Some? then Failure(AuthErrorText(error.value)) else Success(())
    }
  }

  /**
   * The answer of `prompt_account_auth` and the number of input entries it
   * reads, for an engine that knows `backends` and refuses to add the accounts
   * in `addFailures`.
   */
  function Auth(backends: set<string>, addFailures: map<string, string>, account: ConfigAccount, input: seq<string>, login: LoginOutcome): (r: AuthAnswer)
    ensures r.used <= |input|
  {
    if account.backend !in backends then AuthAnswer(Some(UnknownBackend(account.backend)), 0)
    else match FirstNonEmpty(input)
      case None => AuthAnswer(Some(PasswordUnreadable), |input|)
      case Some(at) =>
        var afterPassword: nat := at + 1;
        var addError := if account.email in addFailures then Some(AddRefused(account.email, addFailures[account.email])) else None;
        match login
        case CaptchaRequested => AuthAnswer(Some(CaptchaRequired(account.email)), afterPassword)
        case LoginFailed(reason) => AuthAnswer(Some(LoginRefused(account.email, reason)), afterPassword)
        case LoggedIn => AuthAnswer(addError, afterPassword)
        case AwaitingTotp(accepted) =>
          var rest := input[afterPassword..];
          var used := afterPassword + TotpEntriesRead(rest, accepted);
          if !TotpPasses(rest, accepted) then AuthAnswer(Some(TotpExhausted), used)
          else AuthAnswer(addError, used)
  }

  /**
   * Each way `prompt_account_auth` can fail, in the order it checks them, and
   * the exact condition for success.
   */
  lemma AuthAnswers(backends: set<string>, addFailures: map<string, string>, account: ConfigAccount, input: seq<string>, login: LoginOutcome)
    ensures var a := Auth(backends, addFailures, account, input, login);
      account.backend !in backends ==> a == AuthAnswer(Some(UnknownBackend(account.backend)), 0)
    ensures var a := Auth(backends, addFailures, account, input, login);
      account.backend in backends && FirstNonEmpty(input).None? ==> a == AuthAnswer(Some(PasswordUnreadable), |input|)
    ensures var a := Auth(backends, addFailures, account, input, login);
      account.backend in backends && FirstNonEmpty(input).Some? && login.CaptchaRequested? ==>
      a == AuthAnswer(Some(CaptchaRequired(account.email)), FirstNonEmpty(input).value + 1)
    ensures var a := Auth(backends, addFailures, account, input, login);
      account.backend in backends && FirstNonEmpty(input).Some? && login.LoginFailed? ==>
      a == AuthAnswer(Some(LoginRefused(account.email, login.reason)), FirstNonEmpty(input).value + 1)
    ensures var a := Auth(backends, addFailures, account, input, login);
      (&& account.backend in backends && FirstNonEmpty(input).Some? && login.AwaitingTotp?
       && !LoginPasses(input, FirstNonEmpty(input).value, login)) ==>
      a.error == Some(TotpExhausted)
    ensures var a := Auth(backends, addFailures, account, input, login);
      (&& account.backend in backends && FirstNonEmpty(input).Some?
       && LoginPasses(input, FirstNonEmpty(input).value, login)) ==>
      && (account.email in addFailures ==> a.error == Some(AddRefused(account.email, addFailures[account.email])))
      && (account.email !in addFailures ==> a.error.None?)
    ensures var a := Auth(backends, addFailures, account, input, login);
      a.error.None? <==>
      && account.backend in backends
      && FirstNonEmpty(input).Some?
      && LoginPasses(input, FirstNonEmpty(input).value, login)
      && account.email !in addFailures
  {
    if account.backend in backends && FirstNonEmpty(input).Some? {
      var at := FirstNonEmpty(input).value;
      match login
      case AwaitingTotp(accepted) =>
        assert LoginPasses(input, at, login) <==> TotpPasses(input[at + 1..], accepted);
      case _ =>
    }
  }

  /**
   * `prompt_account_auth`: find the backend, read a password, log in, pass
   * TOTP if asked, then add the account. `used` counts the input lines read.
   * The call answers as `Auth` says, and the account is added, logged in,
   * exactly when it succeeds.
   */
  method PromptAccountAuth(observer: Observer, account: ConfigAccount, input: seq<string>, login: LoginOutcome)
    returns (r: Result<()>, used: nat)
    modifies observer
    ensures r == Auth(observer.backends, observer.addFailures, account, input, login).Returned()
    ensures used == Auth(observer.backends, observer.addFailures, account, input, login).used
    ensures r.Success? ==> observer.accounts == old(observer.accounts)[account.email := ObservedAccount(account.backend, true)]
    ensures r.Failure? ==> observer.accounts == old(observer.accounts)
  {
    used := 0;
    if account.backend !in observer.backends {
      return Failure(AuthErrorText(UnknownBackend(account.backend))), used;
    }
    var password, read := PromptPassword(input);
    used := read;
    if password.None? {
      return Failure(AuthErrorText(PasswordUnreadable)), used;
    }
    if login.CaptchaRequested? {
      return Failure(AuthErrorText(CaptchaRequired(account.email))), used;
    }
    if login.LoginFailed? {
      return Failure(AuthErrorText(LoginRefused(account.email, login.reason))), used;
    }
    if login.AwaitingTotp? {
      var rest := input[used..];
      var ok, attempts := PromptTotp(rest, login.accepted);
      used := used + if attempts <= |rest| then attempts else |rest|;
      assert used == read + TotpEntriesRead(rest, login.accepted);
      if !ok {
        return Failure(AuthErrorText(TotpExhausted)), used;
      }
    }
    var added := observer.AddAccount(account.email, account.backend);
    if added.Failure? {
      return Failure(AuthErrorText(AddRefused(account.email, added.error))), used;
    }
    r := Success(());
  }

  /** The emails of the first `n` configured accounts. */
  function EmailsOf(accounts: seq<ConfigAccount>, n: nat): set<string>
    requires n <= |accounts|
  {
    set j | 0 <= j < n :: accounts[j].email
  }

  /** The account `email` is absent from `observed` or logged out there. */
  predicate AbsentOrLoggedOut(observed: map<string, ObservedAccount>, email: string)
  {
    email !in observed || !observed[email].loggedIn
  }

  /** The first `n` configured accounts are present and logged in under their backends. */
  ghost predicate Configured(observed: map<string, ObservedAccount>, accounts: seq<ConfigAccount>, n: nat)
    requires n <= |accounts|
  {
    forall j :: 0 <= j < n ==>
      accounts[j].email in observed && observed[accounts[j].email] == ObservedAccount(accounts[j].backend, true)
  }

  /** Accounts outside the first `n` configured emails are as they were. */
  ghost predicate UntouchedOutside(before: map<string, ObservedAccount>, after: map<string, ObservedAccount>, accounts: seq<ConfigAccount>, n: nat)
    requires n <= |accounts|
  {
    forall e :: e !in EmailsOf(accounts, n) ==>
      (e in after <==> e in before) && (e in after ==> after[e] == before[e])
  }

  /** The engine holds the configured account's email under a different backend. */
  predicate HeldUnderOtherBackend(observed: map<string, ObservedAccount>, account: ConfigAccount)
  {
    account.email in observed && observed[account.email].backend != account.backend
  }

  /** None of the first `n` configured accounts is held under a different backend. */
  ghost predicate NoneHeldElsewhere(before: map<string, ObservedAccount>, accounts: seq<ConfigAccount>, n: nat)
    requires n <= |accounts|
  {
    forall j :: 0 <= j < n ==> !HeldUnderOtherBackend(before, accounts[j])
  }

  /**
   * Credentials were asked only for configured accounts absent or logged out
   * at the start, and only for one configured with the backend the engine
   * already had it under.
   */
  ghost predicate PromptedOnlyWhenNeeded(before: map<string, ObservedAccount>, prompted: seq<string>, accounts: seq<ConfigAccount>, n: nat)
    requires n <= |accounts|
  {
    forall k :: 0 <= k < |prompted| ==>
      && AbsentOrLoggedOut(before, prompted[k])
      && exists j :: 0 <= j < n && accounts[j].email == prompted[k] && !HeldUnderOtherBackend(before, accounts[j])
  }

  /** Credentials were asked for each of the first `n` accounts absent or logged out at the start. */
  ghost predicate PromptedWhenNeeded(before: map<string, ObservedAccount>, prompted: seq<string>, accounts: seq<ConfigAccount>, n: nat)
    requires n <= |accounts|
  {
    forall j :: 0 <= j < n && AbsentOrLoggedOut(before, accounts[j].email) ==> accounts[j].email in prompted
  }

  /** Only the accounts in `prompted` differ between `before` and `after`. */
  ghost predicate ChangedOnlyPrompted(before: map<string, ObservedAccount>, after: map<string, ObservedAccount>, prompted: seq<string>)
  {
    forall e :: e !in prompted ==> (e in after <==> e in before) && (e in after ==> after[e] == before[e])
  }

  /** The invariant of the loop of `configure_accounts` after `n` accounts. */
  ghost predicate ConfigureProgress(before: map<string, ObservedAccount>, after: map<string, ObservedAccount>, prompted: seq<string>, accounts: seq<ConfigAccount>, n: nat)
    requires n <= |accounts|
  {
    && Configured(after, accounts, n)
    && UntouchedOutside(before, after, accounts, n)
    && PromptedOnlyWhenNeeded(before, prompted, accounts, n)
    && PromptedWhenNeeded(before, prompted, accounts, n)
    && NoneHeldElsewhere(before, accounts, n)
    && ChangedOnlyPrompted(before, after, prompted)
    && before.Keys <= after.Keys
  }

  lemma EmailsOfStep(accounts: seq<ConfigAccount>, n: nat)
    requires n < |accounts|
    ensures EmailsOf(accounts, n + 1) == EmailsOf(accounts, n) + {accounts[n].email}
  {
  }

  /** An account that needs no credentials keeps the loop invariant. */
  lemma SkipKeepsProgress(before: map<string, ObservedAccount>, after: map<string, ObservedAccount>, prompted: seq<string>, accounts: seq<ConfigAccount>, n: nat)
    requires n < |accounts|
    requires ConfigureProgress(before, after, prompted, accounts, n)
    requires NeedsPrompt(after, accounts[n]) == Success(false)
    ensures ConfigureProgress(before, after, prompted, accounts, n + 1)
  {
    var email := accounts[n].email;
    EmailsOfStep(accounts, n);
    if email in EmailsOf(accounts, n) {
      var j :| 0 <= j < n && accounts[j].email == email;
      assert !HeldUnderOtherBackend(before, accounts[j]);
      if AbsentOrLoggedOut(before, email) {
        assert email in prompted;
      }
    }
    assert !HeldUnderOtherBackend(before, accounts[n]);
  }

  /** An account whose credentials were just accepted keeps the loop invariant. */
  lemma PromptKeepsProgress(before: map<string, ObservedAccount>, after: map<string, ObservedAccount>, prompted: seq<string>, accounts: seq<ConfigAccount>, n: nat)
    requires n < |accounts|
    requires ConfigureProgress(before, after, prompted, accounts, n)
    requires NeedsPrompt(after, accounts[n]) == Success(true)
    ensures ConfigureProgress(before, after[accounts[n].email := ObservedAccount(accounts[n].backend, true)], prompted + [accounts[n].email], accounts, n + 1)
  {
    var email := accounts[n].email;
    var updated := after[email := ObservedAccount(accounts[n].backend, true)];
    var more := prompted + [email];
    EmailsOfStep(accounts, n);
    assert email !in EmailsOf(accounts, n);
    assert AbsentOrLoggedOut(before, email);
    assert Configured(updated, accounts, n + 1) by {
      forall j | 0 <= j < n + 1
        ensures accounts[j].email in updated && updated[accounts[j].email] == ObservedAccount(accounts[j].backend, true)
      {
        if j < n {
          assert accounts[j].email in EmailsOf(accounts, n);
        }
      }
    }
    assert !HeldUnderOtherBackend(before, accounts[n]);
    assert PromptedOnlyWhenNeeded(before, more, accounts, n + 1) by {
      forall k | 0 <= k < |more|
        ensures AbsentOrLoggedOut(before, more[k])
        ensures exists j :: 0 <= j < n + 1 && accounts[j].email == more[k] && !HeldUnderOtherBackend(before, accounts[j])
      {
        if k < |prompted| {
          assert more[k] == prompted[k];
          var j :| 0 <= j < n && accounts[j].email == prompted[k] && !HeldUnderOtherBackend(before, accounts[j]);
        } else {
          assert accounts[n].email == more[k];
        }
      }
    }
  }

  /** A loop of `configure_accounts` that got through every account gives the promises of a successful call. */
  lemma FinishedRun(before: map<string, ObservedAccount>, after: map<string, ObservedAccount>, prompted: seq<string>, accounts: seq<ConfigAccount>)
    requires ConfigureProgress(before, after, prompted, accounts, |accounts|)
    ensures Configured(after, accounts, |accounts|)
    ensures PromptedOnlyWhenNeeded(before, prompted, accounts, |accounts|)
    ensures PromptedWhenNeeded(before, prompted, accounts, |accounts|)
    ensures ChangedOnlyPrompted(before, after, prompted)
    ensures forall e :: e in before && e !in EmailsOf(accounts, |accounts|) ==> e in after && after[e] == before[e]
    ensures forall j :: 0 <= j < |accounts| ==> !HeldUnderOtherBackend(before, accounts[j])
    ensures before.Keys <= after.Keys
  {
  }

  /**
   * A loop of `configure_accounts` that stops at the `i`-th account, which is
   * not present and logged in under its backend, leaves the accounts
   * unconfigured and keeps the promises of every call.
   */
  lemma StoppedRun(before: map<string, ObservedAccount>, after: map<string, ObservedAccount>, prompted: seq<string>, accounts: seq<ConfigAccount>, i: nat)
    requires i < |accounts|
    requires ConfigureProgress(before, after, prompted, accounts, i)
    requires !(accounts[i].email in after && after[accounts[i].email] == ObservedAccount(accounts[i].backend, true))
    ensures !Configured(after, accounts, |accounts|)
    ensures PromptedOnlyWhenNeeded(before, prompted, accounts, |accounts|)
    ensures ChangedOnlyPrompted(before, after, prompted)
    ensures forall e :: e in before && e !in EmailsOf(accounts, |accounts|) ==> e in after && after[e] == before[e]
    ensures before.Keys <= after.Keys
  {
    forall k | 0 <= k < |prompted|
      ensures AbsentOrLoggedOut(before, prompted[k])
      ensures exists j :: 0 <= j < |accounts| && accounts[j].email == prompted[k] && !HeldUnderOtherBackend(before, accounts[j])
    {
      assert PromptedOnlyWhenNeeded(before, prompted, accounts, i);
      var j :| 0 <= j < i && accounts[j].email == prompted[k] && !HeldUnderOtherBackend(before, accounts[j]);
    }
  }

  /** The answer of `configure_accounts`, the accounts the engine then holds and the accounts added after a prompt. */
  datatype ConfigureRun = ConfigureRun(result: Result<()>, observed: map<string, ObservedAccount>, prompted: seq<string>)

  /**
   * What `configure_accounts` does from the `i`-th configured account on,
   * with the engine holding `observed` and `position` input entries read:
   * a backend mismatch stops the run with its error, an account absent or
   * logged out is prompted for and stops the run with `prompt_account_auth`'s
   * error when that fails, and any other account is passed over.
   */
  function ConfigureFrom(observed: map<string, ObservedAccount>, backends: set<string>, addFailures: map<string, string>,
                         accounts: seq<ConfigAccount>, i: nat, input: seq<string>, position: nat,
                         logins: string -> LoginOutcome): (run: ConfigureRun)
    requires i <= |accounts| && position <= |input|
    ensures forall k :: 0 <= k < |run.prompted| ==> run.prompted[k] in EmailsAfter(accounts, i)
    decreases |accounts| - i
  {
    if i == |accounts| then ConfigureRun(Success(()), observed, [])
    else
      var account := accounts[i];
      match NeedsPrompt(observed, account)
      case Failure(e) => ConfigureRun(Failure(e), observed, [])
      case Success(prompt) =>
        if !prompt then
          ConfigureFrom(observed, backends, addFailures, accounts, i + 1, input, position, logins)
        else
          var a := Auth(backends, addFailures, account, input[position..], logins(account.email));
          if a.error.Some? then ConfigureRun(a.Returned(), observed, [])
          else
            var rest := ConfigureFrom(observed[account.email := ObservedAccount(account.backend, true)],
                                      backends, addFailures, accounts, i + 1, input, position + a.used, logins);
            ConfigureRun(rest.result, rest.observed, [account.email] + rest.prompted)
  }

  /** The emails of the configured accounts from the `i`-th on. */
  function EmailsAfter(accounts: seq<ConfigAccount>, i: nat): set<string>
    requires i <= |accounts|
  {
    set j | i <= j < |accounts| :: accounts[j].email
  }

  /**
   * When every configured account from the `i`-th on is already present and
   * logged in under its backend, `configure_accounts` asks for nothing,
   * changes nothing and succeeds.
   */
  lemma {:induction false} ConfigureNothingToDo(observed: map<string, ObservedAccount>, backends: set<string>, addFailures: map<string, string>,
                                                accounts: seq<ConfigAccount>, i: nat, input: seq<string>, position: nat,
                                                logins: string -> LoginOutcome)
    requires i <= |accounts| && position <= |input|
    requires forall j :: i <= j < |accounts| ==>
      accounts[j].email in observed && observed[accounts[j].email] == ObservedAccount(accounts[j].backend, true)
    ensures ConfigureFrom(observed, backends, addFailures, accounts, i, input, position, logins) == ConfigureRun(Success(()), observed, [])
    decreases |accounts| - i
  {
    if i < |accounts| {
      ConfigureNothingToDo(observed, backends, addFailures, accounts, i + 1, input, position, logins);
    }
  }

  /** The run `whole` is the accounts `prompted` so far followed by the run `tail` from here on. */
  ghost predicate RunContinues(whole: ConfigureRun, prompted: seq<string>, tail: ConfigureRun)
  {
    whole == ConfigureRun(tail.result, tail.observed, prompted + tail.prompted)
  }

  /** Moving one prompted account from the rest of the run to those prompted so far. */
  lemma RunContinuesStep(whole: ConfigureRun, prompted: seq<string>, email: string, rest: ConfigureRun)
    requires RunContinues(whole, prompted, ConfigureRun(rest.result, rest.observed, [email] + rest.prompted))
    ensures RunContinues(whole, prompted + [email], rest)
  {
    assert prompted + ([email] + rest.prompted) == (prompted + [email]) + rest.prompted;
  }

  /**
   * The invariant of the loop of `configure_accounts` after `i` accounts,
   * with `position` input entries read: the promises kept so far, and the
   * whole run being the accounts prompted so far followed by the run from
   * here on.
   */
  ghost predicate ConfigureLoop(before: map<string, ObservedAccount>, whole: ConfigureRun, after: map<string, ObservedAccount>,
                                prompted: seq<string>, accounts: seq<ConfigAccount>, i: nat, input: seq<string>, position: nat,
                                backends: set<string>, addFailures: map<string, string>, logins: string -> LoginOutcome)
    requires i <= |accounts| && position <= |input|
  {
    && ConfigureProgress(before, after, prompted, accounts, i)
    && RunContinues(whole, prompted, ConfigureFrom(after, backends, addFailures, accounts, i, input, position, logins))
  }

  /** An account that needs no credentials keeps the loop of `configure_accounts` going. */
  lemma ConfigureSkipStep(before: map<string, ObservedAccount>, whole: ConfigureRun, after: map<string, ObservedAccount>,
                          prompted: seq<string>, accounts: seq<ConfigAccount>, i: nat, input: seq<string>, position: nat,
                          backends: set<string>, addFailures: map<string, string>, logins: string -> LoginOutcome)
    requires i < |accounts| && position <= |input|
    requires ConfigureLoop(before, whole, after, prompted, accounts, i, input, position, backends, addFailures, logins)
    requires NeedsPrompt(after, accounts[i]) == Success(false)
    ensures ConfigureLoop(before, whole, after, prompted, accounts, i + 1, input, position, backends, addFailures, logins)
  {
    SkipKeepsProgress(before, after, prompted, accounts, i);
  }

  /**
   * An account whose credentials were accepted keeps the loop of
   * `configure_accounts` going: the engine then holds `next`, `nextPosition`
   * entries are read and `nextPrompted` were prompted for.
   */
  lemma ConfigurePromptStep(before: map<string, ObservedAccount>, whole: ConfigureRun, after: map<string, ObservedAccount>,
                            prompted: seq<string>, accounts: seq<ConfigAccount>, i: nat, input: seq<string>, position: nat,
                            backends: set<string>, addFailures: map<string, string>, logins: string -> LoginOutcome,
                            next: map<string, ObservedAccount>, nextPosition: nat, nextPrompted: seq<string>)
    requires i < |accounts| && position <= |input|
    requires ConfigureLoop(before, whole, after, prompted, accounts, i, input, position, backends, addFailures, logins)
    requires NeedsPrompt(after, accounts[i]) == Success(true)
    requires Auth(backends, addFailures, accounts[i], input[position..], logins(accounts[i].email)).error.None?
    requires next == after[accounts[i].email := ObservedAccount(accounts[i].backend, true)]
    requires nextPosition == position + Auth(backends, addFailures, accounts[i], input[position..], logins(accounts[i].email)).used
    requires nextPrompted == prompted + [accounts[i].email]
    ensures nextPosition <= |input|
    ensures ConfigureLoop(before, whole, next, nextPrompted, accounts, i + 1, input, nextPosition, backends, addFailures, logins)
  {
    PromptKeepsProgress(before, after, prompted, accounts, i);
    RunContinuesStep(whole, prompted, accounts[i].email,
      ConfigureFrom(next, backends, addFailures, accounts, i + 1, input, nextPosition, logins));
  }

  /**
   * The promises of a call of `configure_accounts` that stopped with the
   * failure `answer`, the engine holding `after` and `prompted` prompted for.
   */
  ghost predicate ConfigureStopped(before: map<string, ObservedAccount>, whole: ConfigureRun, after: map<string, ObservedAccount>,
                                   answer: Result<()>, prompted: seq<string>, accounts: seq<ConfigAccount>)
  {
    && ConfigureRun(answer, after, prompted) == whole
    && answer.Failure?
    && !Configured(after, accounts, |accounts|)
    && PromptedOnlyWhenNeeded(before, prompted, accounts, |accounts|)
    && ChangedOnlyPrompted(before, after, prompted)
    && (forall e :: e in before && e !in EmailsOf(accounts, |accounts|) ==> e in after && after[e] == before[e])
    && before.Keys <= after.Keys
  }

  /**
   * The loop of `configure_accounts` stopping at the `i`-th account, with
   * the backend mismatch's error or the failed prompt's, ends the whole run
   * there.
   */
  lemma ConfigureStopStep(before: map<string, ObservedAccount>, whole: ConfigureRun, after: map<string, ObservedAccount>,
                          prompted: seq<string>, accounts: seq<ConfigAccount>, i: nat, input: seq<string>, position: nat,
                          backends: set<string>, addFailures: map<string, string>, logins: string -> LoginOutcome,
                          answer: Result<()>)
    requires i < |accounts| && position <= |input|
    requires ConfigureLoop(before, whole, after, prompted, accounts, i, input, position, backends, addFailures, logins)
    requires
      || (NeedsPrompt(after, accounts[i]).Failure? && answer == Failure(NeedsPrompt(after, accounts[i]).error))
      || (&& NeedsPrompt(after, accounts[i]) == Success(true)
          && answer == Auth(backends, addFailures, accounts[i], input[position..], logins(accounts[i].email)).Returned()
          && answer.Failure?)
    ensures ConfigureStopped(before, whole, after, answer, prompted, accounts)
  {
    StoppedRun(before, after, prompted, accounts, i);
  }

  /**
   * The body of the loop of `configure_accounts` for the `i`-th account:
   * `stop` holds the call's answer when the loop ends here, and otherwise the
   * loop goes on with `nextPosition` entries read and `nextPrompted` prompted.
   */
  method ConfigureAccount(observer: Observer, ghost before: map<string, ObservedAccount>, ghost whole: ConfigureRun,
                          accounts: seq<ConfigAccount>, i: nat, input: seq<string>, position: nat, prompted: seq<string>,
                          logins: string -> LoginOutcome)
    returns (stop: Option<Result<()>>, nextPosition: nat, nextPrompted: seq<string>)
    requires i < |accounts| && position <= |input|
    requires ConfigureLoop(before, whole, observer.accounts, prompted, accounts, i, input, position, observer.backends, observer.addFailures, logins)
    modifies observer
    ensures nextPosition <= |input|
    ensures stop.None? ==>
      ConfigureLoop(before, whole, observer.accounts, nextPrompted, accounts, i + 1, input, nextPosition, observer.backends, observer.addFailures, logins)
    ensures stop.Some? ==> nextPrompted == prompted && ConfigureStopped(before, whole, observer.accounts, stop.value, prompted, accounts)
  {
    nextPosition, nextPrompted := position, prompted;
    var account := accounts[i];
    var decision := NeedsPrompt(observer.accounts, account);
    if decision.Failure? {
      ConfigureStopStep(before, whole, observer.accounts, prompted, accounts, i, input, position, observer.backends, observer.addFailures, logins,
        Failure(decision.error));
      return Some(Failure(decision.error)), nextPosition, nextPrompted;
    }
    if decision.value {
      ghost var held := observer.accounts;
      var authed, used := PromptAccountAuth(observer, account, input[position..], logins(account.email));
      if authed.Failure? {
        ConfigureStopStep(before, whole, observer.accounts, prompted, accounts, i, input, position, observer.backends, observer.addFailures, logins,
          authed);
        return Some(authed), nextPosition, nextPrompted;
      }
      nextPosition := position + used;
      nextPrompted := prompted + [account.email];
      ConfigurePromptStep(before, whole, held, prompted, accounts, i, input, position, observer.backends, observer.addFailures, logins,
        observer.accounts, nextPosition, nextPrompted);
    } else {
      ConfigureSkipStep(before, whole, observer.accounts, prompted, accounts, i, input, position, observer.backends, observer.addFailures, logins);
    }
    stop := None;
  }

  /**
   * `configure_accounts`: for each configured account in order, stop with an
   * error on a backend mismatch, ask for credentials when the account is
   * absent or logged out, and stop at the first failed prompt. `logins` gives
   * the engine's answer to each account's login; `prompted` lists the
   * accounts added after a prompt.
   *
   * The call does what `ConfigureFrom` says from the first account on. It
   * succeeds exactly when every configured account ends present and logged
   * in under its configured backend. Only absent or logged-out accounts are
   * prompted for, and on success every one of them was. Only prompted
   * accounts change, and accounts that are not configured are left alone.
   */
  method ConfigureAccounts(observer: Observer, accounts: seq<ConfigAccount>, input: seq<string>, logins: string -> LoginOutcome)
    returns (r: Result<()>, prompted: seq<string>)
    modifies observer
    ensures ConfigureRun(r, observer.accounts, prompted)
      == ConfigureFrom(old(observer.accounts), observer.backends, observer.addFailures, accounts, 0, input, 0, logins)
    ensures r.Success? <==> Configured(observer.accounts, accounts, |accounts|)
    ensures PromptedOnlyWhenNeeded(old(observer.accounts), prompted, accounts, |accounts|)
    ensures r.Success? ==> PromptedWhenNeeded(old(observer.accounts), prompted, accounts, |accounts|)
    ensures forall e :: e !in prompted ==>
      (e in observer.accounts <==> e in old(observer.accounts)) && (e in observer.accounts ==> observer.accounts[e] == old(observer.accounts)[e])
    ensures forall e :: e in old(observer.accounts) && e !in EmailsOf(accounts, |accounts|) ==>
      e in observer.accounts && observer.accounts[e] == old(observer.accounts)[e]
    ensures r.Success? ==> forall j :: 0 <= j < |accounts| ==> !HeldUnderOtherBackend(old(observer.accounts), accounts[j])
    ensures old(observer.accounts).Keys <= observer.accounts.Keys
  {
    prompted := [];
    var position: nat := 0;
    ghost var whole := ConfigureFrom(old(observer.accounts), observer.backends, observer.addFailures, accounts, 0, input, 0, logins);
    for i := 0 to |accounts|
      invariant position <= |input|
      invariant ConfigureLoop(old(observer.accounts), whole, observer.accounts, prompted, accounts, i, input, position, observer.backends, observer.addFailures, logins)
    {
      var stop;
      stop, position, prompted := ConfigureAccount(observer, old(observer.accounts), whole, accounts, i, input, position, prompted, logins);
      if stop.Some? {
        return stop.value, prompted;
      }
    }
    FinishedRun(old(observer.accounts), observer.accounts, prompted, accounts);
    r := Success(());
  }
}
