# You Have Mail CLI — notifier core in Dafny

`you-have-mail-cli` is a command-line front end to a mail-polling engine. The
engine reports events as `Notification`s:

- new emails for an account;
- an account logged out;
- an account error;
- a configuration or server error;
- kinds the front end ignores.

The front end passes each notification to a *notifier multiplexer*. The
multiplexer hands it, in registration order, to each configured notifier.

This project models the notifiers and the start-up decisions around them:

- **Push notifiers** (`ntfy` and unified push). Each notifier translates
  the notification into an owned message and puts it in a bounded channel
  (capacity 20). A worker drains that channel in FIFO order. For each
  message the worker makes one HTTP POST:
  - a marker header is always set;
  - a bearer `authorization` header (section 2.1 of RFC 6750) is set when a
    token is configured;
  - an `X-Tags: exclamation` header is set for the error kinds;
  - either the title goes in `X-Title` and the body is the payload, or the
    bare title is the payload.

  Failed exchanges are logged and never stop the worker. The two notifiers
  differ only in the wording of their error logs, so they are one model
  parameterised by `PushKind`.
- **Console notifier.** The fixed lines it prints for each notification.
- **Multiplexer and builder.** The ordered fan-out.
- **Utilities.** The default directories, the configuration-file path and the
  encryption-key bootstrap: reuse the stored key, or store a new one.
- **Start-up decisions.**
  - Plain-text secrets are refused without consent, and an empty notifier
    list is refused.
  - The multiplexer is built from the configuration.
  - The accounts to delete are selected and removed.
  - For each configured account, the front end decides whether to ask for
    credentials. The whole run over the account list is described by a
    recursive function (`ConfigureFrom`), and the loop is proved to follow
    it; the errors of `prompt_account_auth` are named by a datatype whose
    texts `AuthErrorText` gives.
  - The bounded password and TOTP loops.

Files:

| file | module | contents |
|---|---|---|
| `types.dfy` | `Wrappers`, `Notifications` | `Option`/`Result`; the engine's `Notification` |
| `format.dfy` | `Format` | decimal rendering of counts and its parse-back; substring and newline facts |
| `push_message.dfy` | `PushMessages` | the channel message, translation and rendering |
| `push_request.dfy` | `PushRequests` | headers with replace-on-set semantics; the request and payload of each post |
| `push_worker.dfy` | `PushWorker` | the channel, the notifier side, the worker loop, construction |
| `stdout_notifier.dfy` | `StdOutNotifier` | the console notifier |
| `multiplexer.dfy` | `Notifiers` | the multiplexer, its builder, `new_notifier` |
| `utils.dfy` | `Utils` | paths and `get_or_create_secret_key` |
| `startup.dfy` | `Startup` | the decisions of `main.rs` |

Several things outside the model become parameters of the model instead:

- **HTTP exchange.** Its result is an `Outcome`: delivered, an error status
  with an optional body, or a transport failure.
- **Thread spawn.** Its error is an `Option<string>`.
- **Platform directories.** They are `Option<Path>`.
- **New encryption key.** It is a parameter.
- **Typed input.** It is a sequence of lines.
- **The engine's answers.** The engine is an `Observer` with its accounts,
  its backend names and the errors it reports per account, one map for
  refused additions and one for refused removals. Login is a
  `LoginOutcome`, and the TOTP codes the account accepts are a set.

The help text of `--delete-accounts` (`src/main.rs:60`) says that accounts
*not* listed in the configuration file are deleted. The code of
`delete_accounts` deletes the observed accounts that *are* listed, or all
of them when the file lists none. The model follows the code.

`src/notifiers/unified_push.rs` mirrors `src/notifiers/ntfy_notifier.rs`
statement for statement, except for the log wording and ntfy's debug line, so the rows below cite whichever file states the property:
`notify` is at lines 41-65 there, `new` at 69-92, `thread_loop` at 104-132,
`new_request` at 134-147, the two request kinds at 149-157 and `send` at
159-182. Only the error-log wording differs (`PushWorker.FailureLine`,
`PushWorker.SpawnFailure`).

The wire texts keep the source's own wording. This includes the doubled
closing parenthesis in the new-email title and "Failed to sent" in the
error logs.

## Model

| member | source | states |
|---|---|---|
| Format.NatToString | src/notifiers/ntfy_notifier.rs:111 | the count is written as a non-empty digit string without leading zeros |
| Format.ParseNatToString | src/notifiers/ntfy_notifier.rs:111 | the decimal count reads back as the same number |
| Format.NatToStringInjective | src/notifiers/ntfy_notifier.rs:111 | different counts give different texts |
| PushMessages.Restore | src/notifiers/ntfy_notifier.rs:33-39 | every message comes from one of the five forwarded notification kinds |
| PushMessages.Translate | src/notifiers/ntfy_notifier.rs:42-62 | a message exists exactly for the five forwarded kinds, and it carries the notification's data unchanged |
| PushMessages.TranslateRestore | src/notifiers/ntfy_notifier.rs:42-62 | translation and restoration are inverse: each message is the translation of its notification |
| PushMessages.TranslateInjective | src/notifiers/ntfy_notifier.rs:42-62 | different forwarded notifications never become the same message |
| PushMessages.Body | src/notifiers/ntfy_notifier.rs:112-115 | the body is empty exactly when there are no emails, and otherwise ends with a line feed |
| PushMessages.BodyAppend | src/notifiers/ntfy_notifier.rs:112-115 | the body of a concatenated batch is the concatenation of the bodies |
| PushMessages.BodyLineCount | src/notifiers/ntfy_notifier.rs:112-115 | when no sender or subject contains a line break, the body has exactly one line per email |
| PushMessages.BodyOfTwoEmails | src/notifiers/ntfy_notifier.rs:114 | each email becomes "**sender**: subject" and a line feed, in order |
| PushMessages.BuildBody | src/notifiers/ntfy_notifier.rs:112-115 | the loop produces the body of all emails in order; the body is empty exactly when there are no emails |
| PushMessages.Render | src/notifiers/ntfy_notifier.rs:109-130 | error urgency exactly for the three error kinds; no body exactly for a logout; new mail carries the email body; error kinds carry the error text as body |
| PushMessages.NewEmailTitle | src/notifiers/ntfy_notifier.rs:111 | the title starts with the account and ends with " new message(s))" |
| PushMessages.NewEmailRendering | src/notifiers/ntfy_notifier.rs:111 | the title names the account and a decimal count that parses back to the number of emails; an empty batch gives "0" and an empty body |
| PushMessages.BodyStep | src/notifiers/ntfy_notifier.rs:113-115 | pushing the next email's line extends the body of the emails before it |
| PushMessages.EmptyBatchRendering | src/notifiers/ntfy_notifier.rs:111-116 | an empty batch is rendered as the title "<account> has 0 new message(s))" with an empty body, at info level |
| PushMessages.ZeroCountTitle | src/notifiers/ntfy_notifier.rs:111 | with no emails the title reads "<account> has 0 new message(s))" |
| PushRequests.RemoveHeader | src/notifiers/ntfy_notifier.rs:140 | replacing a header first drops every header of that name and keeps only headers it had |
| PushRequests.RemoveHeaderUnnamed | src/notifiers/ntfy_notifier.rs:157 | dropping a name no header has leaves the headers as they are |
| PushRequests.RemoveHeaderAbsent | src/notifiers/ntfy_notifier.rs:140 | after dropping a name, no header of that name is found |
| PushRequests.RemoveHeaderOther | src/notifiers/ntfy_notifier.rs:140 | dropping one name leaves the lookup of every other name unchanged |
| PushRequests.HeaderValueAppend | src/notifiers/ntfy_notifier.rs:140 | lookup takes the first match: appended headers are seen only when the name was absent |
| PushRequests.SetGet | src/notifiers/ntfy_notifier.rs:140 | about the model's header list (no request sets a name twice): after setting a header its lookup gives the new value, and other names are unaffected |
| PushRequests.RemoveHeaderAppend | src/notifiers/ntfy_notifier.rs:140 | dropping a name distributes over concatenation |
| PushRequests.RemoveHeaderTwice | src/notifiers/ntfy_notifier.rs:140 | about the model's header list: dropping a name is idempotent |
| PushRequests.RemoveHeaderCommute | src/notifiers/ntfy_notifier.rs:140 | about the model's header list: dropping two names is order-independent |
| PushRequests.RemoveAfterSet | src/notifiers/ntfy_notifier.rs:141-145 | about the model's header list: setting a header and then dropping it gives the request with that name dropped |
| PushRequests.RemoveCommutesWithSet | src/notifiers/ntfy_notifier.rs:141-145 | about the model's header list: dropping one name commutes with setting a different name |
| PushRequests.SetKeepsNamesDistinct | src/notifiers/ntfy_notifier.rs:140 | about the model's header list: setting a header never creates a duplicate name |
| PushRequests.RemoveHeaderDistinct | src/notifiers/ntfy_notifier.rs:140 | dropping a name keeps header names distinct |
| PushRequests.NewRequest | src/notifiers/ntfy_notifier.rs:136-149 | a POST to the configured URL whose headers are exactly the marker and, when a token is configured, the bearer credential |
| PushRequests.InfoRequest | src/notifiers/ntfy_notifier.rs:151-154 | the informational request is the base request, with no tag |
| PushRequests.ErrorRequest | src/notifiers/ntfy_notifier.rs:156-159 | the error request is the base request followed by the exclamation tag |
| PushRequests.SendPost | src/notifiers/ntfy_notifier.rs:161-166 | with a body, the body is the payload and the title is in the title header; without one, the request goes out as is with the title as payload |
| PushRequests.PostFor | src/notifiers/ntfy_notifier.rs:109-131 | every post is a POST to the configured URL, and its payload is the rendered body, or the rendered title when there is no body |
| PushRequests.NewRequestShape | src/notifiers/ntfy_notifier.rs:136-149 | a POST to the configured URL, with the marker header set to 1, the bearer header exactly when a token is configured, no tag or title header, and distinct header names |
| PushRequests.PostShape | src/notifiers/ntfy_notifier.rs:151-166 | each post has the marker and, when configured, the bearer header; the exclamation tag exactly for the error kinds; with a body, the title header and the body as payload; without, the title as payload |
| PushRequests.TokenOnlyInAuthorization | src/notifiers/unified_push.rs:139-146 | the token appears only in the authorization header: without it, the post equals the post made without a token |
| PushRequests.NotificationPostShape | src/notifiers/ntfy_notifier.rs:42-62 | ignored kinds post nothing; a forwarded notification is tagged exclamation exactly when it is an error kind |
| PushWorker.PostsForAppend | src/notifiers/ntfy_notifier.rs:108 | the posts for two runs of messages are the posts of each run, in order |
| Format.ContainsExtend | src/notifiers/ntfy_notifier.rs:176-185 | text that contains a name still contains it once more text is appended |
| PushWorker.FailureLogAppend | src/notifiers/ntfy_notifier.rs:170-187 | the error log of two runs of exchanges is the log of each run, in order |
| PushWorker.OnePostPerMessage | src/notifiers/ntfy_notifier.rs:106-134 | exactly one post per message, in order, whatever the exchanges answer |
| PushWorker.FailureLogLength | src/notifiers/unified_push.rs:159-182 | one error line per failed exchange and none per success |
| PushWorker.FailureLine | src/notifiers/ntfy_notifier.rs:170-187 | every error line for a failed exchange names the notifier it happened in |
| PushWorker.SendFailureLine | src/notifiers/ntfy_notifier.rs:64-66 | the line logged for a refused send names the notifier |
| PushWorker.Mailbox.constructor | src/notifiers/ntfy_notifier.rs:77 | a new channel is empty, with both ends held |
| PushWorker.Mailbox.Send | src/notifiers/ntfy_notifier.rs:64 | a send is refused exactly when the receiver is gone; otherwise the message goes to the back of the queue; the capacity bound holds |
| PushWorker.Mailbox.Recv | src/notifiers/ntfy_notifier.rs:108 | messages come out oldest first, even after the sender is gone; only an empty channel without a sender ends the loop |
| PushWorker.Mailbox.DropSender | src/notifiers/ntfy_notifier.rs:28-31 | dropping the notifier releases the sending end and keeps the buffered messages |
| PushWorker.Mailbox.DropReceiver | src/notifiers/ntfy_notifier.rs:106-134 | the worker's exit releases the receiving end and keeps the rest of the channel |
| PushWorker.PushNotifier.constructor | src/notifiers/ntfy_notifier.rs:90-93 | the notifier keeps its name and the sending end |
| PushWorker.PushNotifier.Notify | src/notifiers/ntfy_notifier.rs:42-67 | ignored kinds leave the channel alone; forwarded kinds are enqueued as their translation, or logged with the notifier's name when the worker is gone |
| PushWorker.Worker.constructor | src/notifiers/ntfy_notifier.rs:78-84 | the worker state holds the configuration and the receiving end, and has posted and logged nothing |
| PushWorker.Worker.Send | src/notifiers/ntfy_notifier.rs:161-189 | one post with the title-or-body payload choice; one error line for a status or transport failure, none on success |
| PushWorker.Worker.Deliver | src/notifiers/ntfy_notifier.rs:109-131 | each message is posted once, as its rendering prescribes, and a failure is logged |
| PushWorker.Worker.ThreadLoop | src/notifiers/ntfy_notifier.rs:106-134 | every buffered message is posted once, in FIFO order, and failures only add to the log; the loop waits while the sender lives and exits, dropping the receiver, once the sender is gone |
| PushWorker.Worker.Turn | src/notifiers/ntfy_notifier.rs:108-132 | one turn receives the oldest buffered message, posts it and logs its failure, keeping the loop's progress: the first i+1 messages posted and their failures logged |
| PushWorker.DrainStep | src/notifiers/unified_push.rs:106-129 | each turn of the loop adds exactly the post for the next message and the log lines of its exchange |
| PushWorker.FailureLogStep | src/notifiers/unified_push.rs:159-182 | one more exchange adds exactly its own error lines to the log |
| PushWorker.SpawnFailure | src/notifiers/unified_push.rs:83-86 | the spawn error names the notifier and carries the operating system's reason |
| PushWorker.NewPushNotifier | src/notifiers/ntfy_notifier.rs:71-94 | a failed spawn gives the spawn error naming the notifier; otherwise notifier and worker share one fresh, empty channel of capacity 20 |
| StdOutNotifier.Stdout.PrintLine | src/notifiers/stdout_notifier.rs:16-35 | each printed line is appended to standard output |
| StdOutNotifier.EmailLines | src/notifiers/stdout_notifier.rs:20-22 | one line per email |
| StdOutNotifier.StdOutLines | src/notifiers/stdout_notifier.rs:10-38 | new mail prints one line more than it has emails; a logout and each error kind print one line; proxy and other kinds print nothing |
| StdOutNotifier.EmailLinesAppend | src/notifiers/stdout_notifier.rs:20-22 | the email lines of a concatenated batch are the lines of each part |
| StdOutNotifier.EmailLinesInOrder | src/notifiers/stdout_notifier.rs:20-22 | one line per email, in the order of the emails |
| StdOutNotifier.StdOutLinesShape | src/notifiers/stdout_notifier.rs:8-39 | new mail prints a header and then one line per email; a logout prints one fixed line; each error kind prints one line containing the error; proxy and other kinds print nothing |
| StdOutNotifier.HeaderLineCount | src/notifiers/stdout_notifier.rs:16-19 | the header states the account, the backend and the email count in decimal, which parses back |
| StdOutNotifier.Notify | src/notifiers/stdout_notifier.rs:8-39 | standard output grows by exactly the lines for the notification |
| Notifiers.Fanout | src/notifiers/mod.rs:40-42 | one call per registered notifier, each carrying the same notification and addressed to a registered notifier |
| Notifiers.FanoutAppend | src/notifiers/mod.rs:38-44 | fan-out over two lists is the fan-out over each, in order |
| Notifiers.FanoutCallsEachOnce | src/notifiers/mod.rs:38-44 | each registered notifier is called exactly once, in order, with the same notification; duplicates are called once per entry |
| Notifiers.FanoutAfterWithNotifier | src/notifiers/mod.rs:26-29 | registering one more notifier adds one call, made last |
| Notifiers.NotifierMultiplexer.constructor | src/notifiers/mod.rs:31-35 | the multiplexer holds the given notifiers |
| Notifiers.NotifierMultiplexer.Notify | src/notifiers/mod.rs:38-44 | one call per notifier, in list order, each with the notification |
| Notifiers.NotifierMultiplexerBuilder.constructor | src/notifiers/mod.rs:21-24 | a new builder has no notifiers |
| Notifiers.NotifierMultiplexerBuilder.WithNotifier | src/notifiers/mod.rs:26-29 | the notifier is appended at the end, with no uniqueness check |
| Notifiers.NotifierMultiplexerBuilder.Build | src/notifiers/mod.rs:31-35 | the multiplexer holds the same notifiers in the same order |
| Notifiers.NewNotifier | src/notifiers/mod.rs:51-55 | the console kind always yields the console notifier |
| Utils.Join | src/utils.rs:48 | joining appends exactly one component and keeps the rest |
| Utils.GetConfigFilePath | src/utils.rs:58-60 | the configuration file is the entry `config` inside the directory |
| Utils.ConfigFilePathInjective | src/utils.rs:58-60 | different directories give different configuration files |
| Utils.GetDefaultConfigDir | src/utils.rs:45-50 | fails exactly when the platform has no local configuration directory; otherwise that directory joined with the application identifier |
| Utils.GetDefaultLogDir | src/utils.rs:52-56 | fails exactly when the platform has no data directory; otherwise that directory joined with the application identifier |
| Utils.SecretStore.constructor | src/secrets/mod.rs:12-17 | a store with the given content and answers that has received no stores yet |
| Utils.SecretStore.Load | src/secrets/mod.rs:15-16 | the load error, or the stored key if any |
| Utils.SecretStore.Store | src/secrets/mod.rs:13-14 | every call is recorded; on success the store holds the key, on failure it keeps its content |
| Utils.GetOrCreateSecretKey | src/utils.rs:67-87 | a load error propagates; an existing key is returned as existing without storing; otherwise the new key is stored once and returned as new, or the store error propagates and the store keeps what it held; on success the store holds the returned key |
| Startup.BuildNotifier | src/main.rs:113-136 | plain secrets without consent are refused before any notifier is made; then an empty list is refused; otherwise one notifier per configured entry, in order |
| Startup.Observer.RemoveAccount | src/main.rs:363-365 | the engine either refuses the removal (by its own map of refusals) and keeps its accounts, or forgets exactly that account |
| Startup.Observer.AddAccount | src/main.rs:338-340 | the engine either refuses the addition (by a map separate from removals) and keeps its accounts, or records the account as logged in under its backend |
| Startup.SelectForDeletion | src/main.rs:347-358 | with a list, exactly the observed accounts the list names; without one, every observed account |
| Startup.DeleteAccounts | src/main.rs:343-369 | succeeds exactly when the engine refuses none of the selected accounts, and then removes exactly those; a failure is `Failed to delete account <email>: <reason>` for a selected account the engine refused and still holds; only selected accounts are ever removed, and the accounts that remain are unchanged |
| Startup.NeedsPrompt | src/main.rs:255-263 | an error exactly when the engine has the account under another backend; otherwise credentials are asked for exactly when the account is absent or logged out |
| Startup.FirstNonEmpty | src/main.rs:280-289 | the index of the first non-empty entry, all entries before it being empty; none when every entry is empty |
| Startup.PromptPassword | src/main.rs:280-289 | the loop returns the first non-empty entry after reading it and every empty entry before it; with no such entry, it reads all input and returns nothing |
| Startup.TrimEndNewlines | src/main.rs:319 | a prefix of the line that ends without a line feed, and only line feeds were removed |
| Startup.PromptTotp | src/main.rs:309-336 | at most five attempts; success exactly when one of the five attempts submits a non-empty, accepted code, and then it stops at the first such attempt; the number of attempts is the one `AttemptsFrom` gives |
| Startup.AttemptsFrom | src/main.rs:310-331 | the loop makes the current attempt and never more attempts than remain |
| Startup.AttemptsFromStop | src/main.rs:310-331 | every attempt before the last one made fails, and a loop that stops short of five attempts stopped on a success |
| Startup.TotpEntriesRead | src/main.rs:310-318 | the TOTP loop never reads more entries than the input holds, nor more than five |
| Startup.Auth | src/main.rs:275-341 | the call never reads more entries than the input holds |
| Startup.AuthAnswers | src/main.rs:275-341 | each failure gives its own error in source order: unknown backend (reading nothing), unreadable password (reading everything), captcha, failed login (reading up to the password), five failed TOTP attempts, refused addition; success holds exactly when the backend is known, a non-empty password is read, the login is accepted outright or one of the five TOTP attempts after the password is accepted, and the engine accepts the account |
| Startup.PromptAccountAuth | src/main.rs:275-341 | answers, with the texts of `AuthErrorText`, and reads as many entries as `Auth` says; the account is added, logged in, exactly on success, and the engine's accounts are unchanged on failure |
| Startup.EmailsOfStep | src/main.rs:255 | the emails seen so far grow by the current account's email |
| Startup.SkipKeepsProgress | src/main.rs:255-269 | skipping an account that needs no credentials keeps the loop invariant |
| Startup.PromptKeepsProgress | src/main.rs:265-268 | adding a prompted account keeps the loop invariant |
| Startup.FinishedRun | src/main.rs:255-272 | a loop that got through every configured account keeps every promise of a successful call |
| Startup.StoppedRun | src/main.rs:256-266 | a loop that stops at an account not present and logged in under its backend leaves the configuration incomplete, and still prompted only where needed and changed only prompted accounts |
| Startup.ConfigureFrom | src/main.rs:255-269 | the accounts prompted for are all configured accounts still ahead in the list |
| Startup.ConfigureNothingToDo | src/main.rs:255-272 | when every remaining configured account is present and logged in under its backend, the run prompts for nothing, changes nothing and succeeds |
| Startup.RunContinuesStep | src/main.rs:265-268 | an accepted account moves from the rest of the run to the accounts prompted so far without changing the whole run |
| Startup.ConfigureSkipStep | src/main.rs:256-263 | an account that needs no credentials keeps the loop invariant and the run ahead |
| Startup.ConfigurePromptStep | src/main.rs:265-268 | an account whose credentials were accepted keeps the loop invariant and the run ahead, with the entries `Auth` reads consumed |
| Startup.ConfigureStopStep | src/main.rs:256-266 | a backend mismatch or a failed prompt ends the whole run there with that error, and the call keeps its promises for a failure |
| Startup.ConfigureAccount | src/main.rs:255-268 | one account of the loop: either the loop goes on with its invariant kept and the run ahead unchanged, or the call stops with a failure that is the whole run's answer |
| Startup.ConfigureAccounts | src/main.rs:252-273 | answers, changes the engine's accounts and prompts exactly as `ConfigureFrom` describes from the first account; succeeds exactly when every configured account ends present and logged in under its configured backend; success means no configured account was held under another backend; only absent or logged-out configured accounts, held under their configured backend if at all, are prompted; on success every such account was prompted; only prompted accounts change, and accounts that are not configured keep their state |

## Left out

- HTTP transport is not modelled. This covers the client's connect and read timeouts (60 s and 120 s), its disabled connection pool, TLS and the response. Each exchange is an `Outcome` parameter. `Outcome` keeps the client's split into error status (with a readable or unreadable body) and transport error.
- Threads and blocking are reduced to sequential calls. `PushWorker.Mailbox.Send` requires room in the queue instead of blocking when the channel is full.
- `PushWorker.Mailbox.Recv` requires a message, or a gone sender, instead of blocking.
- `PushWorker.Worker.ThreadLoop` runs until `recv` would block or the sender is gone. Messages that arrive later are handled by a later call. It requires one outcome per buffered message.
- The worker thread is not modelled as a thread. `PushWorker.NewPushNotifier` takes the spawn result as a parameter. The thread name is also not modelled.
- Logging below error level is not modelled: debug and info lines, including ntfy's success line. The same goes for the `eprintln!`/`print!` prompts on the terminal.
- Of the push notifiers' logs, only their error lines are modelled. In `main.rs`, only the returned error is modelled; the `error!` line that duplicates it is not.
- `PushWorker.PushNotifier.Notify` logs a refused send with the channel's standard error text ("sending on a disconnected channel"). The model hard-codes that text, because the channel library is not part of this model.
- The secret store implementations are not part of this model: `secrets/plain_secrets.rs`, `secrets/keyring_secrets.rs` and `new_secrets`. `Utils.SecretStore` stands for any implementation of the `Secrets` trait that leaves its content alone when a store fails.
- Utils.SecretStore.Store: a failed store is assumed to leave the store as it was. The `Secrets` trait does not promise this. The file-backed store truncates the key file before writing (src/utils.rs:24-33), so a failed write can leave an empty or partial file, which a later `load` rejects as an invalid key.
- Utils.GetOrCreateSecretKey: when storing the new key fails, the store is assumed to keep what it held (nothing). With the file-backed store, a failed first store can instead leave a damaged key file that makes every later start fail in `load`.
- `EncryptionKey::new` draws a random key. It is the `newKey` parameter.
- The file helpers of `utils.rs` (lines 1-43) set file permissions and write files. They are platform I/O and are not modelled.
- The rest of `main.rs` is not modelled:
  - argument parsing;
  - log set-up;
  - loading and creating the configuration file;
  - building the engine and setting its poll interval;
  - the informational account listing;
  - the Ctrl-C handler and the poll loop.
- The engine (`you_have_mail_common`) is not part of this model. Its accounts are a map from email to backend name and logged-in flag, and its refusals are a per-email error map.
- The login happens after the password is read, but its answer is a `LoginOutcome` that does not depend on the password typed. A TOTP submission succeeds exactly when the code is in the account's accepted set.
- Startup.PromptAccountAuth: the password is read from the terminal (`rpassword`) and the TOTP codes from standard input, two different sources; the model takes both from one `input` sequence, the TOTP lines following the password entries. Reading the password is modelled as taking the next entry, and a read error is the end of the entries.
- Startup.PromptTotp: each attempt opens a new buffered reader on standard input; the model reads exactly one line per attempt, and any input such a reader buffers beyond that line is not modelled.
- Startup.PromptTotp: a failed flush of standard output or a failed line read panics in the source (`expect`); the model has no such failure, and the end of input reads as an empty line.
- Startup.DeleteAccounts: on failure, it does not state which selected accounts were removed before the refusal. The source removes them in the engine's iteration order, which the model leaves unspecified.
- Only the console notifier can be built by `new_notifier`, because `NotifiersType` has only `StdOut`. The push notifiers' `into_notifier` is modelled through `PushWorker.NewPushNotifier`, but nothing in `main.rs` calls it.
