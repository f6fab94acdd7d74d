/**
 * The HTTP push notifiers (`NTFYNotifier`, `UnifiedPushNotifier`) and their
 * worker threads (`ThreadState`), as one model parameterised by the kind of
 * notifier. The notifier and its worker share a bounded mailbox; the worker
 * drains it in FIFO order and makes one delivery attempt per message.
 *
 * Concurrency is abstracted to a sequence of calls: enqueuing where the real
 * channel would block is excluded by a precondition, and `ThreadLoop` runs
 * the worker until it would block in `recv` or until it exits.
 */
module PushWorker {
  import opened Wrappers
  import opened Notifications
  import opened Format
  import opened PushMessages
  import opened PushRequests

  /** Which of the two notifiers; they differ only in the wording of their error logs. */
  datatype PushKind = Ntfy | UnifiedPush

  /** Capacity of the channel between a push notifier and its worker. */
  const MailboxCapacity: nat := 20

  /** The result of one HTTP exchange, as the client reports it. */
  datatype Outcome =
    | Delivered
      /** The server answered with an error status; `body` is None when the response text could not be read. */
    | Status(code: nat, body: Option<string>)
      /** The exchange did not complete (resolution, connection, timeout, TLS). */
    | Transport(reason: string)

  /** The error line logged when the worker is gone and the channel refuses a message. */
  function SendFailureLine(name: string): (r: string)
    ensures Contains(r, name)
  {
    ContainsMiddle("Failed to sent notification to thread (", name, "): sending on a disconnected channel");
    "Failed to sent notification to thread (" + name + "): sending on a disconnected channel"
  }

  function ResponseText(body: Option<string>): string
  {
    if body.Some? then body.value else "Failed to get response body"
  }

  /** The error line `send` logs for a failed exchange; it names the notifier. */
  function FailureLine(kind: PushKind, name: string, outcome: Outcome): (r: string)
    requires !outcome.Delivered?
    ensures Contains(r, name)
  {
    var head := if kind == Ntfy then "Failed to post ntfy request (" else "Failed to sent unified push request (";
    var line := head + name;
    ContainsMiddle(head, name, "");
    assert head + name + "" == line;
    match (kind, outcome)
    case (Ntfy, Status(code, body)) =>
      ContainsExtend(line, name, "): HttpCode=");
      ContainsExtend(line + "): HttpCode=", name, NatToString(code));
      ContainsExtend(line + "): HttpCode=" + NatToString(code), name, " Response=");
      ContainsExtend(line + "): HttpCode=" + NatToString(code) + " Response=", name, ResponseText(body));
      line + "): HttpCode=" + NatToString(code) + " Response=" + ResponseText(body)
    case (Ntfy, Transport(reason)) =>
      ContainsExtend(line, name, "): Transport error=");
      ContainsExtend(line + "): Transport error=", name, reason);
      line + "): Transport error=" + reason
    case (UnifiedPush, Status(code, body)) =>
      ContainsExtend(line, name, "): ");
      ContainsExtend(line + "): ", name, NatToString(code));
      ContainsExtend(line + "): " + NatToString(code), name, " - ");
      ContainsExtend(line + "): " + NatToString(code) + " - ", name, ResponseText(body));
      line + "): " + NatToString(code) + " - " + ResponseText(body)
    case (UnifiedPush, Transport(reason)) =>
      ContainsExtend(line, name, "): ");
      ContainsExtend(line + "): ", name, reason);
      line + "): " + reason
  }

  /** What one exchange adds to the error log: nothing on success, one line on failure. */
  function FailureLines(kind: PushKind, name: string, outcome: Outcome): seq<string>
  {
    if outcome.Delivered? then [] else [FailureLine(kind, name, outcome)]
  }

  /** The error log of a run of exchanges. */
  function FailureLog(kind: PushKind, name: string, outcomes: seq<Outcome>): seq<string>
  {
    if outcomes == [] then [] else FailureLines(kind, name, outcomes[0]) + FailureLog(kind, name, outcomes[1..])
  }

  /** The posts made for a run of messages: one each, in order. */
  function PostsFor(config: PushConfig, messages: seq<PushMessage>): seq<Post>
  {
    if messages == [] then [] else [PostFor(config, messages[0])] + PostsFor(config, messages[1..])
  }

  function FailureCount(outcomes: seq<Outcome>): nat
  {
    if outcomes == [] then 0 else (if outcomes[0].Delivered? then 0 else 1) + FailureCount(outcomes[1..])
  }

  lemma {:induction false} PostsForAppend(config: PushConfig, a: seq<PushMessage>, b: seq<PushMessage>)
    ensures PostsFor(config, a + b) == PostsFor(config, a) + PostsFor(config, b)
    decreases |a|
  {
    if a == [] {
      assert a + b == b;
    } else {
      assert (a + b)[0] == a[0];
      assert (a + b)[1..] == a[1..] + b;
      PostsForAppend(config, a[1..], b);
    }
  }

  lemma {:induction false} FailureLogAppend(kind: PushKind, name: string, a: seq<Outcome>, b: seq<Outcome>)
    ensures FailureLog(kind, name, a + b) == FailureLog(kind, name, a) + FailureLog(kind, name, b)
    decreases |a|
  {
    if a == [] {
      assert a + b == b;
    } else {
      assert (a + b)[0] == a[0];
      assert (a + b)[1..] == a[1..] + b;
      FailureLogAppend(kind, name, a[1..], b);
    }
  }

  /** Exactly one post per message, in mailbox order, whatever the exchanges answered. */
  lemma {:induction false} OnePostPerMessage(config: PushConfig, messages: seq<PushMessage>)
    ensures |PostsFor(config, messages)| == |messages|
    ensures forall i :: 0 <= i < |messages| ==> PostsFor(config, messages)[i] == PostFor(config, messages[i])
    decreases |messages|
  {
    if messages != [] {
      OnePostPerMessage(config, messages[1..]);
    }
  }

  /** One error line per failed exchange, none per success. */
  lemma {:induction false} FailureLogLength(kind: PushKind, name: string, outcomes: seq<Outcome>)
    ensures |FailureLog(kind, name, outcomes)| == FailureCount(outcomes)
    decreases |outcomes|
  {
    if outcomes != [] {
      FailureLogLength(kind, name, outcomes[1..]);
    }
  }

  /** The bounded channel: its buffer and whether each end is still held. */
  class Mailbox {
    var queue: seq<PushMessage>
    var senderAlive: bool
    var receiverAlive: bool

    ghost predicate Valid()
      reads this
    {
      |queue| <= MailboxCapacity
    }

    /** `crossbeam_channel::bounded(20)`: an empty channel with both ends held. */
    constructor ()
      ensures Valid() && queue == [] && senderAlive && receiverAlive
    {
      queue := [];
      senderAlive := true;
      receiverAlive := true;
    }

    /**
     * `Sender::send`. With the receiver gone the message is refused; otherwise
     * it goes to the back of the queue. A full queue would block the caller,
     * which the sequential model excludes by the precondition.
     */
    method Send(m: PushMessage) returns (ok: bool)
      requires Valid() && senderAlive
      requires receiverAlive ==> |queue| < MailboxCapacity
      modifies this
      ensures Valid() && senderAlive == old(senderAlive) && receiverAlive == old(receiverAlive)
      ensures ok == old(receiverAlive)
      ensures queue == if ok then old(queue) + [m] else old(queue)
    {
      ok := receiverAlive;
      if ok {
        queue := queue + [m];
      }
    }

    /**
     * `Receiver::recv`. Buffered messages come out oldest first, even after the
     * sender is gone; only an empty channel without a sender yields None. An
     * empty channel with a live sender would block, which the precondition excludes.
     */
    method Recv() returns (m: Option<PushMessage>)
      requires Valid() && receiverAlive
      requires queue == [] ==> !senderAlive
      modifies this
      ensures Valid() && senderAlive == old(senderAlive) && receiverAlive == old(receiverAlive)
      ensures old(queue) == [] ==> m.None? && queue == []
      ensures old(queue) != [] ==> m == Some(old(queue)[0]) && queue == old(queue)[1..]
    {
      if queue == [] {
        m := None;
      } else {
        m := Some(queue[0]);
        queue := queue[1..];
      }
    }

    /** The notifier, and with it the sending end, is dropped. */
    method DropSender()
      requires Valid()
      modifies this
      ensures Valid() && !senderAlive && queue == old(queue) && receiverAlive == old(receiverAlive)
    {
      senderAlive := false;
    }

    /** The worker exits and drops the receiving end. */
    method DropReceiver()
      requires Valid()
      modifies this
      ensures Valid() && !receiverAlive && queue == old(queue) && senderAlive == old(senderAlive)
    {
      receiverAlive := false;
    }
  }

  /** The producer side: `NTFYNotifier` / `UnifiedPushNotifier`. */
  class PushNotifier {
    const kind: PushKind
    const name: string
    const mailbox: Mailbox

    constructor (kind: PushKind, name: string, mailbox: Mailbox)
      ensures this.kind == kind && this.name == name && this.mailbox == mailbox
    {
      this.kind := kind;
      this.name := name;
      this.mailbox := mailbox;
    }

    /**
     * `notify`: forwarded kinds are translated and sent to the worker; other
     * kinds leave the mailbox untouched. A refused send is only logged, and
     * the line logged is returned.
     */
    method Notify(n: Notification) returns (logged: Option<string>)
      requires mailbox.Valid() && mailbox.senderAlive
      requires IsForwarded(n) && mailbox.receiverAlive ==> |mailbox.queue| < MailboxCapacity
      modifies mailbox
      ensures mailbox.Valid()
      ensures mailbox.senderAlive == old(mailbox.senderAlive) && mailbox.receiverAlive == old(mailbox.receiverAlive)
      ensures !IsForwarded(n) ==> mailbox.queue == old(mailbox.queue) && logged.None?
      ensures IsForwarded(n) && old(mailbox.receiverAlive) ==>
        mailbox.queue == old(mailbox.queue) + [Translate(n).value] && logged.None?
      ensures IsForwarded(n) && !old(mailbox.receiverAlive) ==>
        mailbox.queue == old(mailbox.queue) && logged == Some(SendFailureLine(name))
    {
      var message := Translate(n);
      if message.None? {
        return None;
      }
      var ok := mailbox.Send(message.value);
      logged := if ok then None else Some(SendFailureLine(name));
    }
  }

  /** The consumer side: `ThreadState`, with what it has posted and logged so far. */
  class Worker {
    const kind: PushKind
    const config: PushConfig
    const mailbox: Mailbox
    var posted: seq<Post>
    var log: seq<string>

    constructor (kind: PushKind, config: PushConfig, mailbox: Mailbox)
      ensures this.kind == kind && this.config == config && this.mailbox == mailbox
      ensures posted == [] && log == []
    {
      this.kind := kind;
      this.config := config;
      this.mailbox := mailbox;
      posted := [];
      log := [];
    }

    /** `send`: one exchange; a failure of either kind is logged and nothing else happens. */
    method Send(request: Request, title: string, body: Option<string>, outcome: Outcome)
      modifies this
      ensures posted == old(posted) + [SendPost(request, title, body)]
      ensures log == old(log) + FailureLines(kind, config.name, outcome)
    {
      var post := if body.Some? then Post(request.Set(TitleHeader, title), body.value) else Post(request, title);
      posted := posted + [post];
      match outcome
      case Delivered =>
      case Status(code, response) =>
        var text := if response.Some? then response.value else "Failed to get response body";
        var line := match kind
          case Ntfy => "Failed to post ntfy request (" + config.name + "): HttpCode=" + NatToString(code) + " Response=" + text
          case UnifiedPush => "Failed to sent unified push request (" + config.name + "): " + NatToString(code) + " - " + text;
        log := log + [line];
      case Transport(reason) =>
        var line := match kind
          case Ntfy => "Failed to post ntfy request (" + config.name + "): Transport error=" + reason
          case UnifiedPush => "Failed to sent unified push request (" + config.name + "): " + reason;
        log := log + [line];
    }

    /** One arm of the `match` in `thread_loop`: render the message and send it once. */
    method Deliver(m: PushMessage, outcome: Outcome)
      modifies this
      ensures posted == old(posted) + [PostFor(config, m)]
      ensures log == old(log) + FailureLines(kind, config.name, outcome)
    {
      match m
      case NewEmail(account, _, emails) =>
        var title := NewEmailTitle(account, |emails|);
        var body := BuildBody(emails);
        Send(InfoRequest(config), title, Some(body), outcome);
      case LoggedOut(account) =>
        Send(InfoRequest(config), account + " logged out or session expired", None, outcome);
      case AccountError(account, error) =>
        Send(ErrorRequest(config), account + " encountered an error", Some(error), outcome);
      case ConfigError(error) =>
        Send(ErrorRequest(config), "Server Config Error", Some(error), outcome);
      case Error(error) =>
        Send(ErrorRequest(config), "Server Error", Some(error), outcome);
    }

    /** After `i` turns from (`posted0`, `log0`): the first `i` messages posted, their failures logged. */
    ghost predicate Progress(posted0: seq<Post>, log0: seq<string>, pending: seq<PushMessage>, outcomes: seq<Outcome>, i: nat)
      reads this
    {
      i <= |pending| == |outcomes| &&
      posted == posted0 + PostsFor(config, pending[..i]) &&
      log == log0 + FailureLog(kind, config.name, outcomes[..i])
    }

    /** One turn of `thread_loop`: the oldest message is received and delivered. */
    method Turn(ghost posted0: seq<Post>, ghost log0: seq<string>, ghost pending: seq<PushMessage>, outcomes: seq<Outcome>, i: nat)
      requires mailbox.Valid() && mailbox.receiverAlive
      requires i < |pending| && mailbox.queue == pending[i..]
      requires Progress(posted0, log0, pending, outcomes, i)
      modifies this, mailbox
      ensures mailbox.Valid() && mailbox.queue == pending[i + 1..]
      ensures mailbox.senderAlive == old(mailbox.senderAlive) && mailbox.receiverAlive
      ensures Progress(posted0, log0, pending, outcomes, i + 1)
    {
      var next := mailbox.Recv();
      assert next == Some(pending[i]);
      Deliver(next.value, outcomes[i]);
      DrainStep(kind, config, pending, outcomes, i);
    }

    /**
     * `thread_loop`: receive and deliver messages in FIFO order, one attempt
     * each, the i-th exchange answering `outcomes[i]`. No failure stops the
     * loop. It returns when `recv` would block (the sender is alive and the
     * mailbox is empty) or, once the sender is gone and everything buffered
     * has been attempted, exits and drops the receiver.
     */
    method ThreadLoop(outcomes: seq<Outcome>)
      requires mailbox.Valid() && mailbox.receiverAlive
      requires |outcomes| == |mailbox.queue|
      modifies this, mailbox
      ensures mailbox.Valid() && mailbox.queue == []
      ensures mailbox.senderAlive == old(mailbox.senderAlive)
      ensures mailbox.receiverAlive == old(mailbox.senderAlive)
      ensures posted == old(posted) + PostsFor(config, old(mailbox.queue))
      ensures log == old(log) + FailureLog(kind, config.name, outcomes)
    {
      ghost var pending := mailbox.queue;
      var i := 0;
      while mailbox.queue != []
        invariant mailbox.Valid() && mailbox.receiverAlive
        invariant mailbox.senderAlive == old(mailbox.senderAlive)
        invariant 0 <= i <= |pending| && mailbox.queue == pending[i..]
        invariant Progress(old(posted), old(log), pending, outcomes, i)
        decreases |mailbox.queue|
      {
        Turn(old(posted), old(log), pending, outcomes, i);
        i := i + 1;
      }
      assert pending[..i] == pending && outcomes[..i] == outcomes;
      if !mailbox.senderAlive {
        // `recv` reports the closed channel and the loop exits.
        var closed := mailbox.Recv();
        mailbox.DropReceiver();
      }
    }
  }

  /** The bookkeeping of one turn of `thread_loop`: one more post and its log lines. */
  lemma DrainStep(kind: PushKind, config: PushConfig, pending: seq<PushMessage>, outcomes: seq<Outcome>, i: nat)
    requires i < |pending| && |pending| == |outcomes|
    ensures PostsFor(config, pending[..i + 1]) == PostsFor(config, pending[..i]) + [PostFor(config, pending[i])]
    ensures FailureLog(kind, config.name, outcomes[..i + 1]) == FailureLog(kind, config.name, outcomes[..i]) + FailureLines(kind, config.name, outcomes[i])
  {
    PostsForAppend(config, pending[..i], [pending[i]]);
    assert pending[..i + 1] == pending[..i] + [pending[i]];
    FailureLogStep(kind, config.name, outcomes, i);
  }

  lemma FailureLogStep(kind: PushKind, name: string, outcomes: seq<Outcome>, i: nat)
    requires i < |outcomes|
    ensures FailureLog(kind, name, outcomes[..i + 1]) == FailureLog(kind, name, outcomes[..i]) + FailureLines(kind, name, outcomes[i])
  {
    var single := [outcomes[i]];
    FailureLogAppend(kind, name, outcomes[..i], single);
    assert outcomes[..i + 1] == outcomes[..i] + single;
    assert single[1..] == [];
  }

  /** The error `new` reports when the worker thread cannot be spawned. */
  function SpawnFailure(kind: PushKind, name: string, reason: string): (r: string)
    ensures Contains(r, name) && Contains(r, reason)
  {
    var (head, tail) := if kind == Ntfy then ("Failed to spawn ntfy (", ") thread: ") else ("Failed to spawn unified push thread (", "): ");
    var line := head + name + tail;
    ContainsMiddle(head, name, tail);
    ContainsExtend(line, name, reason);
    ContainsMiddle(line, reason, "");
    assert line + reason + "" == line + reason;
    line + reason
  }

  /**
   * `NTFYNotifier::new` / `UnifiedPushNotifier::new`: a fresh empty mailbox of
   * capacity 20 shared by the notifier and its worker, or the spawn error
   * (`spawnError`, the operating system's answer, stands in for the spawn).
   */
  method NewPushNotifier(kind: PushKind, config: PushConfig, spawnError: Option<string>)
    returns (r: Result<(PushNotifier, Worker)>)
    ensures spawnError.Some? ==> r == Failure(SpawnFailure(kind, config.name, spawnError.value))
    ensures spawnError.None? ==> r.Success?
    ensures r.Success? ==>
      var (notifier, worker) := r.value;
      && fresh(notifier) && fresh(worker) && fresh(notifier.mailbox)
      && notifier.mailbox == worker.mailbox
      && notifier.kind == kind && worker.kind == kind
      && notifier.name == config.name && worker.config == config
      && notifier.mailbox.Valid() && notifier.mailbox.queue == []
      && notifier.mailbox.senderAlive && notifier.mailbox.receiverAlive
      && worker.posted == [] && worker.log == []
  {
    var mailbox := new Mailbox();
    var worker := new Worker(kind, config, mailbox);
    if spawnError.Some? {
      return Failure(SpawnFailure(kind, config.name, spawnError.value));
    }
    var notifier := new PushNotifier(kind, config.name, mailbox);
    r := Success((notifier, worker));
  }
}
