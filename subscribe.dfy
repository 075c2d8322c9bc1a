/** The newsletter subscription endpoint (main.py `subscribe`): check the
    server's mailing-list configuration, build the request to the provider,
    and turn the provider's answer, or the transport failure, into the
    endpoint's reply. The HTTP call is the parameter `post`: whatever the
    network does with a request is one of the `Transport` outcomes. */
module Subscribe {
  import opened Values

  const ApiKeyVar := "BEEHIIV_API_KEY"
  const PublicationVar := "BEEHIIV_PUBLICATION_ID"
  const ApiPrefix := "https://api.beehiiv.com/v2/publications/"
  const ApiSuffix := "/subscriptions"
  const TimeoutSeconds := 10
  const DefaultSource := "website"

  const NotConfigured := HttpError(500, VStr("Beehiiv not configured on server"))
  const GatewayTimeout := HttpError(504, VStr("Beehiiv timeout"))

  /** The validated request body: the email as validation returned it and
      an optional attribution. */
  datatype SubscribeRequest = SubscribeRequest(email: string, source: Option<string>)

  /** The POST the endpoint sends: URL, headers, JSON body and timeout. */
  datatype Outgoing = Outgoing(url: string, headers: map<string, string>, body: Document, timeout: int)

  /** A response body either parses as JSON or is only text. */
  datatype ResponseBody = Json(value: Value) | NotJson(text: string)

  /** What the network makes of a request: a response with a status code,
      a timeout, or another transport failure with its message. */
  datatype Transport = Response(status: int, body: ResponseBody) | Timeout | OtherError(message: string)

  /** Both secrets are set and non-empty. */
  predicate Configured(env: map<string, string>)
  {
    TruthyText(EnvValue(env, ApiKeyVar)) && TruthyText(EnvValue(env, PublicationVar))
  }

  /** The publication a subscriptions URL names, if it is one. */
  function PublicationOf(url: string): Option<string>
  {
    if |url| >= |ApiPrefix| + |ApiSuffix|
       && url[..|ApiPrefix|] == ApiPrefix
       && url[|url| - |ApiSuffix|..] == ApiSuffix
    then Some(url[|ApiPrefix|..|url| - |ApiSuffix|])
    else None
  }

  /** The subscriptions URL of a publication: the publication can be read
      back from it. */
  function SubscriptionsUrl(publicationId: string): (url: string)
    ensures PublicationOf(url) == Some(publicationId)
  {
    var url := ApiPrefix + publicationId + ApiSuffix;
    assert url[..|ApiPrefix|] == ApiPrefix;
    assert url[|url| - |ApiSuffix|..] == ApiSuffix;
    assert url[|ApiPrefix|..|url| - |ApiSuffix|] == publicationId;
    url
  }

  /** The attribution sent to the provider: the request's source when it is
      a non-empty string, "website" otherwise. */
  function UtmSource(source: Option<string>): (s: string)
    ensures s != ""
    ensures TruthyText(source) ==> s == source.value
    ensures !TruthyText(source) ==> s == DefaultSource
  {
    if TruthyText(source) then source.value else DefaultSource
  }

  /** The request to the provider: the validated email, a non-empty
      attribution, a welcome email always asked for, the publication in the
      URL path and the key as a bearer token. */
  function BuildRequest(apiKey: string, publicationId: string, req: SubscribeRequest): (out: Outgoing)
    ensures out.body.Keys == {"email", "utm_source", "send_welcome_email"}
    ensures out.body["email"] == VStr(req.email)
    ensures out.body["utm_source"] == VStr(UtmSource(req.source)) && Truthy(out.body["utm_source"])
    ensures out.body["send_welcome_email"] == VBool(true)
    ensures PublicationOf(out.url) == Some(publicationId)
    ensures out.headers.Keys == {"Authorization", "Content-Type"}
    ensures out.headers["Authorization"] == "Bearer " + apiKey
    ensures out.headers["Content-Type"] == "application/json"
    ensures out.timeout == TimeoutSeconds
  {
    Outgoing(
      SubscriptionsUrl(publicationId),
      map["Authorization" := "Bearer " + apiKey, "Content-Type" := "application/json"],
      map["email" := VStr(req.email),
          "utm_source" := VStr(UtmSource(req.source)),
          "send_welcome_email" := VBool(true)],
      TimeoutSeconds)
  }

  /** The detail forwarded with a provider's error: its JSON body, or the
      text wrapped as `{"message": text}` when the body is not JSON. */
  function ForwardedDetail(body: ResponseBody): Value
  {
    match body
    case Json(v) => v
    case NotJson(text) => VObj(map["message" := VStr(text)])
  }

  /** The provider accepted the subscription. */
  predicate Accepted(o: Transport)
  {
    o.Response? && (o.status == 200 || o.status == 201)
  }

  /** `subscribe`. Without configuration it answers 500 and sends nothing.
      Otherwise it sends one request and answers `{"success": true}` exactly
      when the provider answers 200 or 201, forwards any other status with
      the provider's detail, answers 504 on a timeout and 502 on any other
      transport failure. */
  function Subscribe(env: map<string, string>, req: SubscribeRequest, post: Outgoing -> Transport)
    : (r: Result<Value, HttpError>)
    ensures !Configured(env) ==> r == Err(NotConfigured)
    ensures Configured(env) ==>
              var o := post(BuildRequest(EnvValue(env, ApiKeyVar).value, EnvValue(env, PublicationVar).value, req));
              && (r.Ok? <==> Accepted(o))
              && (o.Response? && !Accepted(o) ==> r == Err(HttpError(o.status, ForwardedDetail(o.body))))
              && (o.Timeout? ==> r == Err(GatewayTimeout))
              && (o.OtherError? ==> r == Err(HttpError(502, VStr("Beehiiv error: " + o.message))))
    ensures r.Ok? ==> r.value == VObj(map["success" := VBool(true)])
  {
    var apiKey := EnvValue(env, ApiKeyVar);
    var publicationId := EnvValue(env, PublicationVar);
    if !TruthyText(apiKey) || !TruthyText(publicationId) then
      Err(NotConfigured)
    else
      match post(BuildRequest(apiKey.value, publicationId.value, req))
      case Response(status, body) =>
        if status == 200 || status == 201 then Ok(VObj(map["success" := VBool(true)]))
        else Err(HttpError(status, ForwardedDetail(body)))
      case Timeout => Err(GatewayTimeout)
      case OtherError(message) => Err(HttpError(502, VStr("Beehiiv error: " + message)))
  }

  /** Without configuration the answer does not depend on the network at
      all: no request is made. */
  lemma UnconfiguredSendsNothing(env: map<string, string>, req: SubscribeRequest,
                                 post1: Outgoing -> Transport, post2: Outgoing -> Transport)
    requires !Configured(env)
    ensures Subscribe(env, req, post1) == Subscribe(env, req, post2) == Err(NotConfigured)
  {
  }
}
