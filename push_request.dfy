/**
 * The HTTP request a push worker posts for one message: `new_request`,
 * `info_notification`, `error_notification` and the payload choice of `send`.
 * The model's `set` replaces any header of the same name; no request here
 * sets one name twice, so this choice does not show in what is posted.
 */
module PushRequests {
  import opened Wrappers
  import opened Notifications
  import opened PushMessages

  /** `name`, `url` and `auth_token` of an ntfy or unified push configuration. */
  datatype PushConfig = PushConfig(name: string, url: string, authToken: Option<string>)

  datatype Header = Header(name: string, value: string)

  /** Headers drop the first `name` header (and any later one) before appending. */
  function RemoveHeader(headers: seq<Header>, name: string): (r: seq<Header>)
    ensures |r| <= |headers|
    ensures forall i :: 0 <= i < |r| ==> r[i].name != name && r[i] in headers
  {
    if headers == [] then []
    else if headers[0].name == name then RemoveHeader(headers[1..], name)
    else [headers[0]] + RemoveHeader(headers[1..], name)
  }

  /** The value of the first header called `name`, if any. */
  function HeaderValue(headers: seq<Header>, name: string): Option<string>
  {
    if headers == [] then None
    else if headers[0].name == name then Some(headers[0].value)
    else HeaderValue(headers[1..], name)
  }

  /** No header name occurs twice. */
  predicate DistinctNames(headers: seq<Header>)
  {
    forall i, j :: 0 <= i < j < |headers| ==> headers[i].name != headers[j].name
  }

  datatype Request = Request(verb: string, url: string, headers: seq<Header>) {
    /** The model's `set`: the header takes `value`, replacing any earlier one of that name. */
    function Set(name: string, value: string): Request
    {
      this.(headers := RemoveHeader(headers, name) + [Header(name, value)])
    }

    function Get(name: string): Option<string>
    {
      HeaderValue(headers, name)
    }
  }

  /** A request as sent: the request and its plain-text payload. */
  datatype Post = Post(request: Request, payload: string)

  const MarkerHeader := "X-UnifiedPush"
  const AuthorizationHeader := "authorization"
  const TagsHeader := "X-Tags"
  const TitleHeader := "X-Title"

  /** The credential of section 2.1 of RFC 6750 (bearer token in the authorization header). */
  function BearerCredential(token: string): string
  {
    "Bearer " + token
  }

  /** The headers every request starts with: the marker, then the bearer credential when a token is configured. */
  function BaseHeaders(config: PushConfig): seq<Header>
  {
    [Header(MarkerHeader, "1")] +
    if config.authToken.Some? then [Header(AuthorizationHeader, BearerCredential(config.authToken.value))] else []
  }

  /** `new_request`: a POST to the server URL with the push marker and, given a token, the bearer header. */
  function NewRequest(config: PushConfig): (r: Request)
    ensures r == Request("POST", config.url, BaseHeaders(config))
  {
    var request := Request("POST", config.url, []).Set(MarkerHeader, "1");
    if config.authToken.Some? then request.Set(AuthorizationHeader, BearerCredential(config.authToken.value))
    else request
  }

  /** `info_notification`'s request: the base request, untagged. */
  function InfoRequest(config: PushConfig): (r: Request)
    ensures r.verb == "POST" && r.url == config.url && r.headers == BaseHeaders(config)
  {
    NewRequest(config)
  }

  /** `error_notification`'s request: the tag that makes the client flag the notification. */
  function ErrorRequest(config: PushConfig): (r: Request)
    ensures r.verb == "POST" && r.url == config.url
    ensures r.headers == BaseHeaders(config) + [Header(TagsHeader, "exclamation")]
  {
    RemoveHeaderUnnamed(BaseHeaders(config), TagsHeader);
    NewRequest(config).Set(TagsHeader, "exclamation")
  }

  /** `send`: with a body, the title travels as a header and the body is the payload; otherwise the title is the payload. */
  function SendPost(request: Request, title: string, body: Option<string>): (p: Post)
    ensures p.request.verb == request.verb && p.request.url == request.url
    ensures body.Some? ==> p.payload == body.value && p.request.Get(TitleHeader) == Some(title)
    ensures body.None? ==> p == Post(request, title)
  {
    if body.Some? then
      SetGet(request, TitleHeader, title, TitleHeader);
      Post(request.Set(TitleHeader, title), body.value)
    else Post(request, title)
  }

  /** What the worker posts for one mailbox message. */
  function PostFor(config: PushConfig, m: PushMessage): (p: Post)
    ensures p.request.verb == "POST" && p.request.url == config.url
    ensures Render(m).body.Some? ==> p.payload == Render(m).body.value && p.request.Get(TitleHeader) == Some(Render(m).title)
    ensures Render(m).body.None? ==> p.payload == Render(m).title
  {
    var rendered := Render(m);
    var request := if rendered.urgency == InfoLevel then InfoRequest(config) else ErrorRequest(config);
    SendPost(request, rendered.title, rendered.body)
  }

  /** What a push notifier eventually posts for an upstream notification, if anything. */
  function PostForNotification(config: PushConfig, n: Notification): Option<Post>
  {
    var m := Translate(n);
    if m.Some? then Some(PostFor(config, m.value)) else None
  }

  // ---------------------------------------------------------------------------
  // Header algebra

  lemma {:induction false} RemoveHeaderAbsent(headers: seq<Header>, name: string)
    ensures HeaderValue(RemoveHeader(headers, name), name) == None
    decreases |headers|
  {
    if headers != [] {
      RemoveHeaderAbsent(headers[1..], name);
    }
  }

  /** Dropping a name no header has changes nothing. */
  lemma {:induction false} RemoveHeaderUnnamed(headers: seq<Header>, name: string)
    requires forall i :: 0 <= i < |headers| ==> headers[i].name != name
    ensures RemoveHeader(headers, name) == headers
    decreases |headers|
  {
    if headers != [] {
      RemoveHeaderUnnamed(headers[1..], name);
    }
  }

  lemma {:induction false} RemoveHeaderOther(headers: seq<Header>, name: string, other: string)
    requires other != name
    ensures HeaderValue(RemoveHeader(headers, name), other) == HeaderValue(headers, other)
    decreases |headers|
  {
    if headers != [] {
      RemoveHeaderOther(headers[1..], name, other);
    }
  }

  lemma {:induction false} HeaderValueAppend(a: seq<Header>, b: seq<Header>, name: string)
    ensures HeaderValue(a + b, name) == if HeaderValue(a, name).Some? then HeaderValue(a, name) else HeaderValue(b, name)
    decreases |a|
  {
    if a != [] {
      assert (a + b)[1..] == a[1..] + b;
      HeaderValueAppend(a[1..], b, name);
    } else {
      assert a + b == b;
    }
  }

  // Facts about the model's header list. No request sets one name twice, so
  // replacement on `set` never happens in what is posted; only the
  // `RemoveHeader` lemmas carry the token property.

  /** After `set`, the header has the value just set and every other header is unchanged. */
  lemma SetGet(r: Request, name: string, value: string, other: string)
    ensures r.Set(name, value).Get(name) == Some(value)
    ensures other != name ==> r.Set(name, value).Get(other) == r.Get(other)
  {
    var kept := RemoveHeader(r.headers, name);
    RemoveHeaderAbsent(r.headers, name);
    HeaderValueAppend(kept, [Header(name, value)], name);
    HeaderValueAppend(kept, [Header(name, value)], other);
    if other != name {
      RemoveHeaderOther(r.headers, name, other);
    }
  }

  lemma {:induction false} RemoveHeaderAppend(a: seq<Header>, b: seq<Header>, name: string)
    ensures RemoveHeader(a + b, name) == RemoveHeader(a, name) + RemoveHeader(b, name)
    decreases |a|
  {
    if a == [] {
      assert a + b == b;
    } else {
      assert (a + b)[0] == a[0];
      assert (a + b)[1..] == a[1..] + b;
      RemoveHeaderAppend(a[1..], b, name);
    }
  }

  lemma {:induction false} RemoveHeaderTwice(headers: seq<Header>, name: string)
    ensures RemoveHeader(RemoveHeader(headers, name), name) == RemoveHeader(headers, name)
    decreases |headers|
  {
    if headers != [] {
      RemoveHeaderTwice(headers[1..], name);
    }
  }

  lemma {:induction false} RemoveHeaderCommute(headers: seq<Header>, n1: string, n2: string)
    ensures RemoveHeader(RemoveHeader(headers, n1), n2) == RemoveHeader(RemoveHeader(headers, n2), n1)
    decreases |headers|
  {
    if headers != [] {
      RemoveHeaderCommute(headers[1..], n1, n2);
    }
  }

  /** Removing a header undoes setting it. */
  lemma RemoveAfterSet(r: Request, name: string, value: string)
    ensures RemoveHeader(r.Set(name, value).headers, name) == RemoveHeader(r.headers, name)
  {
    RemoveHeaderAppend(RemoveHeader(r.headers, name), [Header(name, value)], name);
    RemoveHeaderTwice(r.headers, name);
  }

  /** Removing one header commutes with setting another. */
  lemma RemoveCommutesWithSet(r: Request, name: string, value: string, removed: string)
    requires removed != name
    ensures RemoveHeader(r.Set(name, value).headers, removed) == r.(headers := RemoveHeader(r.headers, removed)).Set(name, value).headers
  {
    RemoveHeaderAppend(RemoveHeader(r.headers, name), [Header(name, value)], removed);
    assert RemoveHeader([Header(name, value)], removed) == [Header(name, value)];
    RemoveHeaderCommute(r.headers, name, removed);
  }

  /** `set` never produces a duplicate header name. */
  lemma SetKeepsNamesDistinct(r: Request, name: string, value: string)
    requires DistinctNames(r.headers)
    ensures DistinctNames(r.Set(name, value).headers)
  {
    var kept := RemoveHeader(r.headers, name);
    RemoveHeaderDistinct(r.headers, name);
    var hs := kept + [Header(name, value)];
    forall i, j | 0 <= i < j < |hs|
      ensures hs[i].name != hs[j].name
    {
      if j == |hs| - 1 {
        assert hs[i] == kept[i];
      }
    }
  }

  lemma {:induction false} RemoveHeaderDistinct(headers: seq<Header>, name: string)
    requires DistinctNames(headers)
    ensures DistinctNames(RemoveHeader(headers, name))
    decreases |headers|
  {
    if headers != [] {
      var tail := headers[1..];
      assert DistinctNames(tail) by {
        forall i, j | 0 <= i < j < |tail| ensures tail[i].name != tail[j].name {
          assert tail[i] == headers[i + 1] && tail[j] == headers[j + 1];
        }
      }
      RemoveHeaderDistinct(tail, name);
      if headers[0].name != name {
        var rest := RemoveHeader(tail, name);
        var hs := [headers[0]] + rest;
        forall i, j | 0 <= i < j < |hs| ensures hs[i].name != hs[j].name {
          if i == 0 {
            assert hs[j] == rest[j - 1] && rest[j - 1] in tail;
            var k :| 0 <= k < |tail| && tail[k] == rest[j - 1];
            assert tail[k] == headers[k + 1];
          } else {
            assert hs[i] == rest[i - 1] && hs[j] == rest[j - 1];
          }
        }
      }
    }
  }

  // ---------------------------------------------------------------------------
  // Request shape

  /** Every request carries the marker header, and the bearer header exactly when a token is configured. */
  lemma NewRequestShape(config: PushConfig)
    ensures NewRequest(config).verb == "POST" && NewRequest(config).url == config.url
    ensures NewRequest(config).Get(MarkerHeader) == Some("1")
    ensures NewRequest(config).Get(AuthorizationHeader) ==
      if config.authToken.Some? then Some(BearerCredential(config.authToken.value)) else None
    ensures NewRequest(config).Get(TagsHeader) == None && NewRequest(config).Get(TitleHeader) == None
    ensures DistinctNames(NewRequest(config).headers)
  {
    var base := Request("POST", config.url, []);
    var marked := base.Set(MarkerHeader, "1");
    SetGet(base, MarkerHeader, "1", AuthorizationHeader);
    SetGet(base, MarkerHeader, "1", TagsHeader);
    SetGet(base, MarkerHeader, "1", TitleHeader);
    SetKeepsNamesDistinct(base, MarkerHeader, "1");
    if config.authToken.Some? {
      var bearer := BearerCredential(config.authToken.value);
      SetGet(marked, AuthorizationHeader, bearer, MarkerHeader);
      SetGet(marked, AuthorizationHeader, bearer, TagsHeader);
      SetGet(marked, AuthorizationHeader, bearer, TitleHeader);
      SetKeepsNamesDistinct(marked, AuthorizationHeader, bearer);
    }
  }

  /**
   * The shape of every post: a POST to the configured URL with the marker
   * header, the bearer header iff a token is configured, the exclamation tag
   * iff the message is error-class, and the title as header plus body as
   * payload when there is a body, the bare title as payload otherwise.
   */
  lemma PostShape(config: PushConfig, m: PushMessage)
    ensures var p := PostFor(config, m); var rendered := Render(m);
      && p.request.verb == "POST"
      && p.request.url == config.url
      && p.request.Get(MarkerHeader) == Some("1")
      && p.request.Get(AuthorizationHeader) ==
         (if config.authToken.Some? then Some(BearerCredential(config.authToken.value)) else None)
      && (p.request.Get(TagsHeader) == if IsErrorKind(Restore(m)) then Some("exclamation") else None)
      && (rendered.body.Some? ==> p.request.Get(TitleHeader) == Some(rendered.title) && p.payload == rendered.body.value)
      && (rendered.body.None? ==> p.request.Get(TitleHeader) == None && p.payload == rendered.title)
      && DistinctNames(p.request.headers)
  {
    var rendered := Render(m);
    NewRequestShape(config);
    var base := NewRequest(config);
    var request := if rendered.urgency == InfoLevel then InfoRequest(config) else ErrorRequest(config);
    if rendered.urgency == ErrorLevel {
      SetGet(base, TagsHeader, "exclamation", MarkerHeader);
      SetGet(base, TagsHeader, "exclamation", AuthorizationHeader);
      SetGet(base, TagsHeader, "exclamation", TitleHeader);
      SetKeepsNamesDistinct(base, TagsHeader, "exclamation");
    }
    if rendered.body.Some? {
      SetGet(request, TitleHeader, rendered.title, MarkerHeader);
      SetGet(request, TitleHeader, rendered.title, AuthorizationHeader);
      SetGet(request, TitleHeader, rendered.title, TagsHeader);
      SetKeepsNamesDistinct(request, TitleHeader, rendered.title);
    }
  }

  /** The request with its authorization header taken out. */
  function WithoutAuthorization(p: Post): Post
  {
    p.(request := p.request.(headers := RemoveHeader(p.request.headers, AuthorizationHeader)))
  }

  /**
   * The token reaches the request only through the authorization header:
   * taking that header out leaves exactly the request made without a token.
   */
  lemma TokenOnlyInAuthorization(config: PushConfig, m: PushMessage)
    ensures WithoutAuthorization(PostFor(config, m)) == PostFor(config.(authToken := None), m)
  {
    var plain := config.(authToken := None);
    var base := Request("POST", config.url, []);
    var marked := base.Set(MarkerHeader, "1");
    RemoveCommutesWithSet(base, MarkerHeader, "1", AuthorizationHeader);
    assert RemoveHeader(marked.headers, AuthorizationHeader) == marked.headers;
    assert NewRequest(plain) == marked;
    if config.authToken.Some? {
      RemoveAfterSet(marked, AuthorizationHeader, BearerCredential(config.authToken.value));
    }
    assert RemoveHeader(NewRequest(config).headers, AuthorizationHeader) == marked.headers;
    var rendered := Render(m);
    var request := if rendered.urgency == InfoLevel then InfoRequest(config) else ErrorRequest(config);
    var plainRequest := if rendered.urgency == InfoLevel then InfoRequest(plain) else ErrorRequest(plain);
    if rendered.urgency == ErrorLevel {
      RemoveCommutesWithSet(NewRequest(config), TagsHeader, "exclamation", AuthorizationHeader);
    }
    assert request.(headers := RemoveHeader(request.headers, AuthorizationHeader)) == plainRequest;
    if rendered.body.Some? {
      RemoveCommutesWithSet(request, TitleHeader, rendered.title, AuthorizationHeader);
    }
  }

  /**
   * From upstream notification to post: unsupported kinds post nothing,
   * the error kinds always carry the exclamation tag and the other kinds never do.
   */
  lemma NotificationPostShape(config: PushConfig, n: Notification)
    ensures PostForNotification(config, n).None? <==> !IsForwarded(n)
    ensures PostForNotification(config, n).Some? ==>
      (PostForNotification(config, n).value.request.Get(TagsHeader) == Some("exclamation") <==> IsErrorKind(n))
  {
    if IsForwarded(n) {
      PostShape(config, Translate(n).value);
    }
  }
}
