/** The error classifier `getErrorMessage` and its wrapper `handleError`:
    from "was there a response, what message did the API send, what status"
    to the string shown to the user. */
module ErrorHandler {
  import opened Wrappers
  import opened Json
  import Client
  import ProductService
  import Messages

  /** `error.response?.data?.message` when it is a non-empty string. */
  function ApiMessage(response: Client.Response): (r: Option<string>)
    ensures var b := response.body;
      r.Some? <==> b.Obj? && "message" in b.fields && b.fields["message"].Str? && b.fields["message"].s != ""
    ensures r.Some? ==> response.body.Obj? && r.value == response.body.fields["message"].s && r.value != ""
  {
    var message := Field(response.body, "message");
    if message.Some? && message.value.Str? && message.value.s != "" then Some(message.value.s) else None
  }

  /** The status table of `getErrorMessage`. */
  function StatusMessage(status: int): (r: string)
    ensures r != "" && r != Messages.Network
  {
    assert |Messages.Network| == 21 && |Messages.Server| == 32 && |Messages.Unauthorized| == 23;
    assert |Messages.Forbidden| == 27 && |Messages.NotFound| == 22 && |Messages.Validation| == 31;
    assert |Messages.Unknown| == 31;
    match status
    case 400 => Messages.Validation
    case 401 => Messages.Unauthorized
    case 403 => Messages.Forbidden
    case 404 => Messages.NotFound
    case 500 => Messages.Server
    case 502 => Messages.Server
    case 503 => Messages.Server
    case _ => Messages.Unknown
  }

  /** `getErrorMessage(error)` for an error whose `response` is given: none
      means a network failure; a non-empty API message wins over the status. */
  function GetErrorMessage(response: Option<Client.Response>): (r: string)
    ensures r != ""
    ensures response.None? ==> r == Messages.Network
    ensures response.Some? && ApiMessage(response.value).Some? ==> r == ApiMessage(response.value).value
  {
    match response
    case None => Messages.Network
    case Some(resp) =>
      match ApiMessage(resp)
      case Some(message) => message
      case None => StatusMessage(resp.status)
  }

  /** `handleError(error, fallbackMessage)`: the classifier's message, else
      the fallback, else the unknown-error message. */
  function HandleError(response: Option<Client.Response>, fallback: Option<string>): (r: string)
    ensures r != ""
  {
    var message := GetErrorMessage(response);
    if message != "" then message
    else match fallback
      case Some(f) => if f != "" then f else Messages.Unknown
      case None => Messages.Unknown
  }

  /** The `response` of each error the product service rejects with: only a
      client error that got an answer has one. */
  function ResponseOf(e: ProductService.ServiceError): Option<Client.Response> {
    match e
    case Transport(err) => err.response
    case ValidationError(_) => None
    case TypeError => None
  }

  // ---------------------------------------------------------------------
  // Properties

  /** Without an API message, the status alone decides: 400, 401, 403 and
      404 have their own message, 500, 502 and 503 share the server message,
      and every other status is unknown. */
  lemma StatusTable(response: Client.Response)
    requires ApiMessage(response).None?
    ensures var r := GetErrorMessage(Some(response));
      && (response.status == 400 <==> r == Messages.Validation)
      && (response.status == 401 <==> r == Messages.Unauthorized)
      && (response.status == 403 <==> r == Messages.Forbidden)
      && (response.status == 404 <==> r == Messages.NotFound)
      && (response.status in {500, 502, 503} <==> r == Messages.Server)
      && (response.status !in {400, 401, 403, 404, 500, 502, 503} <==> r == Messages.Unknown)
  {
    MessagesDistinct();
  }

  /** The seven messages of the table are pairwise different. */
  lemma MessagesDistinct()
    ensures var all := [Messages.Network, Messages.Server, Messages.Unauthorized, Messages.Forbidden,
                        Messages.NotFound, Messages.Validation, Messages.Unknown];
      forall i, j :: 0 <= i < j < |all| ==> all[i] != all[j]
  {
    var all := [Messages.Network, Messages.Server, Messages.Unauthorized, Messages.Forbidden,
                Messages.NotFound, Messages.Validation, Messages.Unknown];
    // Each message is told apart by its length or by one character.
    assert |Messages.Network| == 21 && |Messages.Server| == 32 && |Messages.Unauthorized| == 23;
    assert |Messages.Forbidden| == 27 && |Messages.NotFound| == 22 && |Messages.Validation| == 31;
    assert |Messages.Unknown| == 31;
    assert Messages.Validation[0] != Messages.Unknown[0];
  }

  /** A non-empty string message in the body is shown verbatim, whatever the
      status. */
  lemma ApiMessageOverridesStatus(status: int, message: string, body: map<string, Json>)
    requires message != ""
    ensures GetErrorMessage(Some(Client.Response(status, Obj(body["message" := Str(message)])))) == message
  {
    assert Field(Obj(body["message" := Str(message)]), "message") == Some(Str(message));
  }

  /** A message that is not a non-empty string is ignored. */
  lemma NonStringMessageIgnored(status: int, body: map<string, Json>)
    requires "message" in body && !(body["message"].Str? && body["message"].s != "")
    ensures GetErrorMessage(Some(Client.Response(status, Obj(body)))) == StatusMessage(status)
  {
  }

  /** `handleError` never reaches its fallback: the classifier always has a
      message. */
  lemma FallbackNeverUsed(response: Option<Client.Response>, fallback: Option<string>)
    ensures HandleError(response, fallback) == GetErrorMessage(response)
  {
  }

  /** The service's own rejections (a malformed envelope, a null body) carry
      no response, so they show the network message; so does a request that
      never got a response. */
  lemma ServiceErrorsWithoutResponseShowNetwork(e: ProductService.ServiceError)
    requires !e.Transport? || e.error.response.None?
    ensures GetErrorMessage(ResponseOf(e)) == Messages.Network
  {
  }
}
