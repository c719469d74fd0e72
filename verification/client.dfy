/**
  The WhatsApp Business API client: construction from arguments and environment, the
  shaping of one outbound message, and the classification of what the API answered.
  The HTTP exchange itself is a parameter.
 */
module Client {
  import opened Wrappers
  import opened Text

  /** The environment variables the client reads (`None` when unset). */
  datatype Env = Env(
    clientId: Option<string>,
    clientSecret: Option<string>,
    phoneNumberId: Option<string>,
    apiVersion: Option<string>,
    accessToken: Option<string>)

  datatype WhatsAppClient = WhatsAppClient(phoneNumberId: string, apiVersion: string, accessToken: Option<string>)

  const DefaultApiVersion := "v22.0"
  const CredentialsMissing := "WHATSAPP_CLIENT_ID y WHATSAPP_CLIENT_SECRET deben estar configurados en .env"
  const PhoneMissing := "WHATSAPP_PHONE_NUMBER_ID debe estar configurado en .env o proporcionado al instanciar"

  /** Python truthiness of an optional string: present and non-empty. */
  predicate Truthy(o: Option<string>) {
    o.Some? && |o.value| > 0
  }

  /** Python's `a or b` on optional strings. */
  function Or(a: Option<string>, b: Option<string>): (r: Option<string>)
    ensures Truthy(a) ==> r == a
    ensures !Truthy(a) ==> r == b
  {
    if Truthy(a) then a else b
  }

  /**
    `WhatsAppClient.__init__`: arguments win over the environment when truthy; the API
    version falls back to "v22.0" only when the variable is unset. Missing credentials are
    reported before a missing phone number id.
   */
  function NewClient(env: Env, phoneArg: Option<string>, apiArg: Option<string>, tokenArg: Option<string>)
    : (r: Result<WhatsAppClient>)
    ensures r.Ok? <==> Truthy(env.clientId) && Truthy(env.clientSecret) && Truthy(Or(phoneArg, env.phoneNumberId))
    ensures !(Truthy(env.clientId) && Truthy(env.clientSecret)) ==> r == Err(CredentialsMissing)
    ensures Truthy(env.clientId) && Truthy(env.clientSecret) && !Truthy(Or(phoneArg, env.phoneNumberId)) ==>
      r == Err(PhoneMissing)
    ensures r.Ok? ==>
      && Some(r.value.phoneNumberId) == Or(phoneArg, env.phoneNumberId)
      && r.value.accessToken == Or(tokenArg, env.accessToken)
      && (Truthy(apiArg) ==> r.value.apiVersion == apiArg.value)
      && (!Truthy(apiArg) && env.apiVersion.Some? ==> r.value.apiVersion == env.apiVersion.value)
      && (!Truthy(apiArg) && env.apiVersion.None? ==> r.value.apiVersion == DefaultApiVersion)
  {
    var phone := Or(phoneArg, env.phoneNumberId);
    var api := Or(apiArg, Some(env.apiVersion.GetOr(DefaultApiVersion)));
    var token := Or(tokenArg, env.accessToken);
    if !Truthy(env.clientId) || !Truthy(env.clientSecret) then Err(CredentialsMissing)
    else if !Truthy(phone) then Err(PhoneMissing)
    else Ok(WhatsAppClient(phone.value, api.value, token))
  }

  /** The recipient number with one leading "+" removed. */
  function NormalizeNumber(number: string): (r: string)
    ensures StartsWith(number, "+") ==> number == "+" + r
    ensures !StartsWith(number, "+") ==> r == number
  {
    if StartsWith(number, "+") then
      assert number == number[..1] + number[1..];
      number[1..]
    else number
  }

  /** Only one "+" is removed: a doubled sign keeps the second. */
  lemma NormalizeStripsOnce(rest: string)
    ensures NormalizeNumber("++" + rest) == "+" + rest
  {
    assert "++" + rest == "+" + ("+" + rest);
    PrefixOfConcat("+", "+" + rest);
  }

  /** The request body: a text message, or a template in Spanish. */
  datatype Payload =
    | TextPayload(to: string, body: string)
    | TemplatePayload(to: string, templateName: string, language: string)

  const DefaultTemplate := "hello_world"
  const TemplateLanguage := "es"

  /** A text payload iff the text is truthy, otherwise the named template. */
  function BuildPayload(to: string, text: Option<string>, templateName: string): (r: Payload)
    ensures r.to == NormalizeNumber(to)
    ensures r.TextPayload? <==> Truthy(text)
    ensures r.TextPayload? ==> r.body == text.value
    ensures r.TemplatePayload? ==> r.templateName == templateName && r.language == TemplateLanguage
  {
    var number := NormalizeNumber(to);
    if Truthy(text) then TextPayload(number, text.value) else TemplatePayload(number, templateName, TemplateLanguage)
  }

  const GraphHost := "https://graph.facebook.com/"

  /**
    The messages endpoint of the client: the Graph host and API version, the client's phone
    number id as the path segment between them and "/messages", and nothing else.
   */
  function MessagesUrl(c: WhatsAppClient): (r: string)
    ensures StartsWith(r, GraphHost + c.apiVersion + "/")
    ensures EndsWith(r, "/messages")
    ensures |r| == |GraphHost + c.apiVersion + "/"| + |c.phoneNumberId| + |"/messages"|
    ensures r[|GraphHost + c.apiVersion + "/"|..|r| - |"/messages"|] == c.phoneNumberId
  {
    var head := GraphHost + c.apiVersion + "/";
    var tail := c.phoneNumberId + "/messages";
    PrefixOfConcat(head, tail);
    SuffixOfConcat(head + c.phoneNumberId, "/messages");
    assert head + tail == head + c.phoneNumberId + "/messages";
    assert (head + tail)[|head|..|head + tail| - |"/messages"|] == c.phoneNumberId;
    head + tail
  }

  /** Under one API version the URL names the phone: two clients share it iff they share the id. */
  lemma MessagesUrlNamesPhone(c1: WhatsAppClient, c2: WhatsAppClient)
    requires c1.apiVersion == c2.apiVersion
    ensures MessagesUrl(c1) == MessagesUrl(c2) <==> c1.phoneNumberId == c2.phoneNumberId
  {
    var u1, u2 := MessagesUrl(c1), MessagesUrl(c2);
    var n := |GraphHost + c1.apiVersion + "/"|;
    if u1 == u2 {
      assert c1.phoneNumberId == u1[n..|u1| - 9] == u2[n..|u2| - 9] == c2.phoneNumberId;
    }
  }

  /** What the HTTP exchange gave: a status and body, or an exception. */
  datatype HttpOutcome = Responded(status: int, body: string) | Failed(error: string)

  /** A request actually sent: URL, body and bearer token. */
  datatype Request = Request(url: string, payload: Payload, token: string)

  /** The dictionary `send_message` returns, by the shape it has. */
  datatype SendResult =
    | Preview(url: string, payload: Payload)    // no token: success False, url and payload shown
    | Delivered(data: string)                   // HTTP 200: success True
    | Rejected(status: int, data: string)       // any other status: success False, "Error <status>"
    | Errored(error: string)                    // exception: success False, the error text

  predicate Success(r: SendResult) {
    r.Delivered?
  }

  /** The request made (if any) and the result returned by one `send_message`. */
  datatype Exchange = Exchange(request: Option<Request>, result: SendResult)

  /**
    `send_message`: without a truthy token nothing is sent and a preview comes back;
    otherwise the request is made and success means status 200.
   */
  function SendMessage(c: WhatsAppClient, to: string, text: Option<string>, templateName: string,
                       http: HttpOutcome): (r: Exchange)
    ensures !Truthy(c.accessToken) ==>
      r == Exchange(None, Preview(MessagesUrl(c), BuildPayload(to, text, templateName)))
    ensures Truthy(c.accessToken) ==>
      r.request == Some(Request(MessagesUrl(c), BuildPayload(to, text, templateName), c.accessToken.value))
    ensures Success(r.result) <==> Truthy(c.accessToken) && http.Responded? && http.status == 200
    ensures Truthy(c.accessToken) && http.Failed? ==> r.result == Errored(http.error)
  {
    var url := MessagesUrl(c);
    var payload := BuildPayload(to, text, templateName);
    if !Truthy(c.accessToken) then Exchange(None, Preview(url, payload))
    else
      var request := Some(Request(url, payload, c.accessToken.value));
      match http
      case Failed(e) => Exchange(request, Errored(e))
      case Responded(status, body) =>
        if status == 200 then Exchange(request, Delivered(body)) else Exchange(request, Rejected(status, body))
  }

  /** Without a token the network plays no part: any two outcomes give the same exchange. */
  lemma NoTokenIgnoresHttp(c: WhatsAppClient, to: string, text: Option<string>, templateName: string,
                           h1: HttpOutcome, h2: HttpOutcome)
    requires !Truthy(c.accessToken)
    ensures SendMessage(c, to, text, templateName, h1) == SendMessage(c, to, text, templateName, h2)
    ensures SendMessage(c, to, text, templateName, h1).request.None?
  {
  }

  /**
    `send_whatsapp_message`: an untruthy token argument is replaced by the token reloaded
    from the environment, then a client is built and the message sent. A construction
    failure propagates as the exception.
   */
  function SendWhatsAppMessage(env: Env, to: string, text: Option<string>, phoneArg: Option<string>,
                               templateName: string, tokenArg: Option<string>, reloaded: Option<string>,
                               http: HttpOutcome): (r: Result<Exchange>)
    ensures r.Ok? <==> NewClient(env, phoneArg, None, Or(tokenArg, reloaded)).Ok?
    ensures r.Ok? ==> r.value == SendMessage(NewClient(env, phoneArg, None, Or(tokenArg, reloaded)).value,
                                             to, text, templateName, http)
  {
    var token := Or(tokenArg, reloaded);
    match NewClient(env, phoneArg, None, token)
    case Err(e) => Err(e)
    case Ok(c) => Ok(SendMessage(c, to, text, templateName, http))
  }

  /**
    Whether a send helper (`send_auto_reply`, `send_whatsapp_response`) reports success:
    only a delivered message counts; any exception counts as failure.
   */
  function ReportsSent(r: Result<Exchange>): (ok: bool)
    ensures ok <==> r.Ok? && Success(r.value.result)
  {
    match r
    case Ok(x) => x.result.Delivered?
    case Err(_) => false
  }

  /** A reply is only ever reported sent when the API answered 200. */
  lemma DeliveredMeans200(env: Env, to: string, text: Option<string>, phoneArg: Option<string>,
                          tokenArg: Option<string>, reloaded: Option<string>, http: HttpOutcome)
    requires ReportsSent(SendWhatsAppMessage(env, to, text, phoneArg, DefaultTemplate, tokenArg, reloaded, http))
    ensures http == Responded(200, http.body)
  {
  }

  /** The log preview of a token: its first and last five characters, or "NO TOKEN". */
  function TokenPreview(token: Option<string>): (r: string)
    ensures token.Some? && |token.value| > 10 ==>
      && |r| == 13
      && StartsWith(r, token.value[..5]) && EndsWith(r, token.value[|token.value| - 5..])
      && r[5..8] == "..."
    ensures !(token.Some? && |token.value| > 10) ==> r == "NO TOKEN"
  {
    if token.Some? && |token.value| > 10 then
      var t := token.value;
      var r := t[..5] + "..." + t[|t| - 5..];
      PrefixOfConcat(t[..5], "..." + t[|t| - 5..]);
      assert r == t[..5] + ("..." + t[|t| - 5..]);
      SuffixOfConcat(t[..5] + "...", t[|t| - 5..]);
      assert r[5..8] == "...";
      r
    else "NO TOKEN"
  }

  /**
    The preview reveals nothing of a token but its first and last five characters: tokens
    that agree on those are previewed alike, so one longer than thirteen is never shown whole.
   */
  lemma PreviewHidesLongToken(token: string, other: string)
    requires |token| > 10 && |other| > 10
    requires token[..5] == other[..5] && token[|token| - 5..] == other[|other| - 5..]
    ensures TokenPreview(Some(token)) == TokenPreview(Some(other))
    ensures |token| > 13 ==> TokenPreview(Some(token)) != token
  {
    var p, q := TokenPreview(Some(token)), TokenPreview(Some(other));
    assert p == p[..5] + p[5..8] + p[8..];
    assert q == q[..5] + q[5..8] + q[8..];
    assert p[8..] == p[|p| - 5..];
    assert q[8..] == q[|q| - 5..];
  }
}
