/**
 * The notifier capability, the multiplexer that fans each notification out
 * to every configured notifier, its builder, and `new_notifier`.
 * Notifiers are opaque to the multiplexer, so the model records the calls it
 * makes on them instead of their effects.
 */
module Notifiers {
  import opened Wrappers
  import opened Notifications

  /** The notifier kinds a configuration file can name (`NotifiersType`). */
  datatype NotifiersType = StdOut

  /** A boxed `dyn Notifier`: one of the implementations of this repository. */
  datatype Notifier =
    | StdOutNotifier
    | NtfyNotifier(name: string)
    | UnifiedPushNotifier(name: string)

  /** One call of a notifier's `notify`. */
  datatype Call = Call(target: Notifier, notification: Notification)

  /** The calls a fan-out over `notifiers` makes: one per entry, in list order. */
  function Fanout(notifiers: seq<Notifier>, n: Notification): (r: seq<Call>)
    ensures |r| == |notifiers|
    ensures forall c :: c in r ==> c.notification == n && c.target in notifiers
  {
    if notifiers == [] then [] else [Call(notifiers[0], n)] + Fanout(notifiers[1..], n)
  }

  lemma {:induction false} FanoutAppend(a: seq<Notifier>, b: seq<Notifier>, n: Notification)
    ensures Fanout(a + b, n) == Fanout(a, n) + Fanout(b, n)
    decreases |a|
  {
    if a == [] {
      assert a + b == b;
    } else {
      assert (a + b)[0] == a[0];
      assert (a + b)[1..] == a[1..] + b;
      FanoutAppend(a[1..], b, n);
    }
  }

  /**
   * Every notifier is called exactly once, in registration order, with the
   * same notification; duplicates in the list are called once per entry.
   */
  lemma {:induction false} FanoutCallsEachOnce(notifiers: seq<Notifier>, n: Notification)
    ensures |Fanout(notifiers, n)| == |notifiers|
    ensures forall i :: 0 <= i < |notifiers| ==> Fanout(notifiers, n)[i] == Call(notifiers[i], n)
    decreases |notifiers|
  {
    if notifiers != [] {
      FanoutCallsEachOnce(notifiers[1..], n);
    }
  }

  /** Registering one more notifier adds exactly one call, made last. */
  lemma FanoutAfterWithNotifier(notifiers: seq<Notifier>, extra: Notifier, n: Notification)
    ensures Fanout(notifiers + [extra], n) == Fanout(notifiers, n) + [Call(extra, n)]
  {
    FanoutAppend(notifiers, [extra], n);
  }

  /** `NotifierMultiplexer`: its list of notifiers is fixed once built. */
  class NotifierMultiplexer {
    const notifiers: seq<Notifier>

    constructor (notifiers: seq<Notifier>)
      ensures this.notifiers == notifiers
    {
      this.notifiers := notifiers;
    }

    /**
     * `notify`: hand the notification to every notifier in turn. It returns
     * nothing in the source; here it returns the calls made, in order.
     */
    method Notify(n: Notification) returns (calls: seq<Call>)
      ensures |calls| == |notifiers|
      ensures forall i :: 0 <= i < |notifiers| ==> calls[i] == Call(notifiers[i], n)
      ensures calls == Fanout(notifiers, n)
    {
      calls := [];
      for i := 0 to |notifiers|
        invariant calls == Fanout(notifiers[..i], n)
      {
        FanoutAppend(notifiers[..i], [notifiers[i]], n);
        assert notifiers[..i + 1] == notifiers[..i] + [notifiers[i]];
        calls := calls + [Call(notifiers[i], n)];
      }
      assert notifiers[..|notifiers|] == notifiers;
      FanoutCallsEachOnce(notifiers, n);
    }
  }

  /** `NotifierMultiplexerBuilder`: an ordered, growing list of notifiers. */
  class NotifierMultiplexerBuilder {
    var notifiers: seq<Notifier>

    /** `new`: no notifiers yet. */
    constructor ()
      ensures notifiers == []
    {
      notifiers := [];
    }

    /** `with_notifier`: append at the end; no uniqueness check. */
    method WithNotifier(notifier: Notifier)
      modifies this
      ensures notifiers == old(notifiers) + [notifier]
    {
      notifiers := notifiers + [notifier];
    }

    /** `build`: a multiplexer holding the same notifiers in the same order. */
    method Build() returns (m: NotifierMultiplexer)
      ensures fresh(m) && m.notifiers == notifiers
    {
      m := new NotifierMultiplexer(notifiers);
    }
  }

  /** `new_notifier`: the console notifier, which cannot fail to be made. */
  function NewNotifier(t: NotifiersType): (r: Result<Notifier>)
    ensures r.Success? && r.value.StdOutNotifier?
  {
    match t
    case StdOut => Success(StdOutNotifier)
  }
}
