/** The webhook client of src/lib/utils.ts (`sendToN8NWebhook`): the request it
    builds and the errors it raises. The HTTP exchange itself is an input: the
    outcome the network gives for the request. */
module Webhook {
  import opened Wrappers
  import opened ChatTypes
  import Text

  /** The `type` argument: `'message' | 'audio'`. */
  datatype PayloadType = MessagePayload | AudioPayload

  /** The text the `type` field serialises to. */
  function TypeName(t: PayloadType): string
  {
    match t
    case MessagePayload => "message"
    case AudioPayload => "audio"
  }

  /** The JSON body `{ session_id, type, data }`, with `type` as its text. */
  datatype Payload = Payload(session_id: string, typeName: string, data: string)

  datatype Request = Request(url: string, httpMethod: string, contentType: string, body: Payload)

  datatype WebhookError =
    | ConfigurationError(message: string)
    | HttpError(message: string)
    | NetworkError

  /** What `fetch` gives for the request: a rejection, or a response with its
      status and its parsed JSON body. */
  datatype FetchOutcome = FetchRejected | Response(status: nat, json: N8NResponse)

  const NotConfiguredMessage := "N8N webhook URL is not configured"
  const HttpErrorPrefix := "HTTP error! status: "

  /** `!webhookUrl`: an absent or empty endpoint is not configured. */
  predicate Configured(webhookUrl: Option<string>)
  {
    webhookUrl.Some? && webhookUrl.value != ""
  }

  /** `response.ok`: a status in the range 200 to 299. */
  predicate IsOk(status: nat) { 200 <= status <= 299 }

  /** The error message for a non-success status. */
  function HttpErrorMessage(status: nat): string
  {
    HttpErrorPrefix + Text.NatToString(status)
  }

  /** The status a non-success error carries can be read back from its message. */
  lemma HttpErrorCarriesStatus(status: nat)
    ensures HttpErrorPrefix <= HttpErrorMessage(status)
    ensures var digits := HttpErrorMessage(status)[|HttpErrorPrefix|..];
      Text.AllDigits(digits) && Text.ParseNat(digits) == status
  {
    var digits := HttpErrorMessage(status)[|HttpErrorPrefix|..];
    assert digits == Text.NatToString(status);
    Text.ParseNatToString(status);
  }

  /** The configuration check and the request, as built before `fetch`. */
  function BuildRequest(webhookUrl: Option<string>, sessionId: string, message: string, t: PayloadType)
    : (r: Result<Request, WebhookError>)
    ensures r.Err? <==> !Configured(webhookUrl)
    ensures r.Err? ==> r.error == ConfigurationError(NotConfiguredMessage)
    ensures r.Ok? ==> r.value.url == webhookUrl.value && r.value.httpMethod == "POST"
                      && r.value.contentType == "application/json"
    ensures r.Ok? ==> r.value.body.session_id == sessionId && r.value.body.typeName == TypeName(t)
                      && r.value.body.data == message
  {
    if !Configured(webhookUrl) then Err(ConfigurationError(NotConfiguredMessage))
    else
      // `type === 'audio' ? message : message`: both branches send the input
      var data := if t == AudioPayload then message else message;
      Ok(Request(webhookUrl.value, "POST", "application/json", Payload(sessionId, TypeName(t), data)))
  }

  /** sendToN8NWebhook, with the network's answer to the request as `network`. */
  function SendToN8NWebhook(webhookUrl: Option<string>, sessionId: string, message: string,
                            t: PayloadType, network: FetchOutcome): (r: Result<N8NResponse, WebhookError>)
    ensures !Configured(webhookUrl) ==> r == Err(ConfigurationError(NotConfiguredMessage))
    ensures Configured(webhookUrl) && network.FetchRejected? ==> r == Err(NetworkError)
    ensures Configured(webhookUrl) && network.Response? && !IsOk(network.status) ==>
              r == Err(HttpError(HttpErrorMessage(network.status)))
    ensures Configured(webhookUrl) && network.Response? && IsOk(network.status) ==>
              r == Ok(network.json)
  {
    match BuildRequest(webhookUrl, sessionId, message, t)
    case Err(e) => Err(e)
    case Ok(request) =>
      match network
      case FetchRejected => Err(NetworkError)
      case Response(status, json) =>
        if !IsOk(status) then Err(HttpError(HttpErrorMessage(status))) else Ok(json)
  }

  /** A missing endpoint fails the same way whatever the network would have
      answered: no request reaches it. */
  lemma NotConfiguredIgnoresNetwork(webhookUrl: Option<string>, sessionId: string, message: string,
                                    t: PayloadType, a: FetchOutcome, b: FetchOutcome)
    requires !Configured(webhookUrl)
    ensures SendToN8NWebhook(webhookUrl, sessionId, message, t, a)
         == SendToN8NWebhook(webhookUrl, sessionId, message, t, b)
  {
  }

  /** The body's `type` text names the type the call asked for, and tells the
      two types apart. */
  lemma BodyTypeNamesType(webhookUrl: Option<string>, sessionId: string, message: string, t: PayloadType)
    requires Configured(webhookUrl)
    ensures var body := BuildRequest(webhookUrl, sessionId, message, t).value.body;
      && (body.typeName == "audio" <==> t == AudioPayload)
      && (body.typeName == "message" <==> t == MessagePayload)
  {
  }

  /** The body carries the input unchanged for both payload types. */
  lemma BodyDataIsInput(webhookUrl: Option<string>, sessionId: string, message: string)
    requires Configured(webhookUrl)
    ensures BuildRequest(webhookUrl, sessionId, message, MessagePayload).value.body.data
         == BuildRequest(webhookUrl, sessionId, message, AudioPayload).value.body.data
         == message
  {
  }
}
