/** Option and Result shared by every module. */
module Wrappers {

  datatype Option<+T> = None | Some(value: T)

  /** The model's rendering of `anyhow::Result`: errors are carried as their display text. */
  datatype Result<+T> = Success(value: T) | Failure(error: string)
}

/**
 * The events produced by the account-polling engine (`you_have_mail_common::Notification`).
 * Error payloads are kept as the text their `Display` implementation produces.
 */
module Notifications {

  /** Only the sender and subject of an email are surfaced. */
  datatype EmailInfo = EmailInfo(sender: string, subject: string)

  datatype Notification =
    | NewEmail(account: string, backend: string, emails: seq<EmailInfo>)
    | AccountLoggedOut(account: string)
    | AccountError(account: string, error: string)
    | ProxyApplied(account: string, proxy: string)
    | ConfigError(error: string)
    | Error(error: string)
      /** Any further upstream kind; no notifier of this repository reacts to it. */
    | OtherKind(tag: string)

  /** The three kinds that the push notifiers send with error urgency. */
  predicate IsErrorKind(n: Notification)
  {
    n.AccountError? || n.ConfigError? || n.Error?
  }

  /** The five kinds that the push notifiers forward to their worker. */
  predicate IsForwarded(n: Notification)
  {
    n.NewEmail? || n.AccountLoggedOut? || IsErrorKind(n)
  }
}
