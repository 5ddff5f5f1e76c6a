/**
 * What the client hands to its event sink, and how it decides it: the rule
 * for a 200 response (success or application error), the error envelope
 * built for any other HTTP status, and `handleErrors`.
 */
module Classifier {
  import opened JsonValues
  import opened Text

  /**
   * The observable effects of the client, in order: the three notifications
   * of the event sink (`onLoadingStart`, `onFinished`, `onError`), the POST
   * handed to the network and the queries of the pending-request endpoint.
   */
  datatype Event =
    | LoadingStart
    | Post(url: string, body: string)
    | Query(token: string)
    | Finished(value: Json)
    | Failed(error: Json)

  /** A notification that ends a call: `onFinished` or `onError`. */
  predicate IsDelivery(e: Event) {
    e.Finished? || e.Failed?
  }

  /** How many notifications ending a call `trace` holds. */
  function Deliveries(trace: seq<Event>): (n: nat)
    ensures n <= |trace|
    ensures n == 0 <==> forall i :: 0 <= i < |trace| ==> !IsDelivery(trace[i])
  {
    if trace == [] then 0
    else Deliveries(trace[..|trace| - 1]) + (if IsDelivery(trace[|trace| - 1]) then 1 else 0)
  }

  lemma DeliveriesAppend(trace: seq<Event>, more: seq<Event>)
    ensures Deliveries(trace + more) == Deliveries(trace) + Deliveries(more)
    decreases |more|
  {
    if more != [] {
      var last := |more| - 1;
      assert (trace + more)[..|trace + more| - 1] == trace + more[..last];
      DeliveriesAppend(trace, more[..last]);
    } else {
      assert trace + more == trace;
    }
  }

  // The property names of PerunException's accessors.
  const ErrorId := "errorId"
  const Name := "name"
  const Message := "message"
  const RequestUrl := "requestURL"
  const PostData := "postData"

  /** The shape of an application error: `errorId` and `message` both present. */
  predicate IsErrorEnvelope(j: Json) {
    Present(j, ErrorId) && Present(j, Message)
  }

  /** `setRequestURL` then `setPostData` on an error object. */
  function WithDiagnostics(e: Json, requestUrl: string, postData: string): (r: Json)
    requires e.JObject?
    ensures Field(r, RequestUrl) == JString(requestUrl) && Field(r, PostData) == JString(postData)
    ensures forall k :: k != RequestUrl && k != PostData ==> Field(r, k) == Field(e, k)
  {
    SetField(SetField(e, RequestUrl, JString(requestUrl)), PostData, JString(postData))
  }

  /**
   * The rule for a value that arrived with HTTP 200 (or from a resolved poll):
   * an error envelope goes to `onError` with the request URL and the payload
   * attached, anything else (null included) goes to `onFinished` as it is.
   */
  function Deliver(jso: Json, requestUrl: string, postData: string): (ev: Event)
    ensures IsDelivery(ev)
    ensures ev.Failed? <==> IsErrorEnvelope(jso)
    ensures ev.Finished? ==> ev.value == jso
    ensures ev.Failed? ==> IsErrorEnvelope(ev.error)
    ensures ev.Failed? ==> Field(ev.error, RequestUrl) == JString(requestUrl) && Field(ev.error, PostData) == JString(postData)
    ensures ev.Failed? ==> forall k :: k != RequestUrl && k != PostData ==> Field(ev.error, k) == Field(jso, k)
  {
    if jso != JNull && IsErrorEnvelope(jso) then Failed(WithDiagnostics(jso, requestUrl, postData))
    else Finished(jso)
  }

  const NotAuthorizedMessage := "You are not authorized to server. Your session might have expired. Please refresh the browser window to re-login."
  const InternalErrorMessage := "Server encounter internal error while processing your request. Please report this error and retry."
  const UnavailableMessage := "Server is temporarily unavailable. Please try again later."
  const NotFoundMessage := "Server is probably being restarted at the moment. Please try again later."
  const AbortedMessage := "Can't contact remote server, connection was lost."

  function GenericMessage(status: nat, statusText: string): string {
    "Server responded with HTTP error: " + Decimal(status) + " - " + statusText
  }

  /** `setName` and `setMessage` on an error object. */
  function Rename(e: Json, name: string, message: string): (r: Json)
    requires e.JObject?
    ensures r.JObject? && r.fields.Keys == e.fields.Keys + {Name, Message}
    ensures Field(r, Name) == JString(name) && Field(r, Message) == JString(message)
    ensures forall k :: k != Name && k != Message ==> Field(r, k) == Field(e, k)
  {
    SetField(SetField(e, Name, JString(name)), Message, JString(message))
  }

  /**
   * The name and message an error envelope ends up with for a status other
   * than 200: the status text and a generic message, overridden for the
   * statuses the client knows. `running` says whether the call's token still
   * has an entry among the running requests, which decides what a 500 reads as.
   */
  function Wording(status: nat, statusText: string, running: bool): (w: (string, string))
    ensures status == 401 || status == 403 ==> w == ("Not Authorized", NotAuthorizedMessage)
    ensures status == 500 && running ==> w == ("ServerInternalError", InternalErrorMessage)
    ensures status == 503 ==> w == ("Server Temporarily Unavailable", UnavailableMessage)
    ensures status == 404 ==> w == ("Not found", NotFoundMessage)
    ensures status == 0 ==> w == ("Aborted", AbortedMessage)
    ensures status !in {0, 401, 403, 404, 503} && !(status == 500 && running) ==>
              w == (statusText, GenericMessage(status, statusText))
  {
    if status == 401 || status == 403 then ("Not Authorized", NotAuthorizedMessage)
    else if status == 500 && running then ("ServerInternalError", InternalErrorMessage)
    else if status == 503 then ("Server Temporarily Unavailable", UnavailableMessage)
    else if status == 404 then ("Not found", NotFoundMessage)
    else if status == 0 then ("Aborted", AbortedMessage)
    else (statusText, GenericMessage(status, statusText))
  }

  /**
   * The envelope built for a response whose status is not 200 and that is not
   * escalated into polling: the generic envelope, renamed as `Wording` says.
   */
  function HttpErrorEnvelope(status: nat, statusText: string, data: string, requestUrl: string, running: bool): (e: Json)
    ensures e.JObject? && e.fields.Keys == {ErrorId, Name, Message, PostData, RequestUrl}
    ensures IsErrorEnvelope(e)
    ensures Field(e, ErrorId) == JString(Decimal(status))
    ensures Field(e, PostData) == JString(data) && Field(e, RequestUrl) == JString(requestUrl)
    ensures Field(e, Name) == JString(Wording(status, statusText, running).0)
    ensures Field(e, Message) == JString(Wording(status, statusText, running).1)
  {
    var w := Wording(status, statusText, running);
    Rename(GenericEnvelope(status, statusText, data, requestUrl), w.0, w.1)
  }

  /** The envelope first built for every status other than 200 (lines 275-280 of the client). */
  function GenericEnvelope(status: nat, statusText: string, data: string, requestUrl: string): (e: Json)
    ensures e.JObject? && e.fields.Keys == {ErrorId, Name, Message, PostData, RequestUrl}
    ensures Field(e, ErrorId) == JString(Decimal(status))
    ensures Field(e, Name) == JString(statusText) && Field(e, Message) == JString(GenericMessage(status, statusText))
    ensures Field(e, PostData) == JString(data) && Field(e, RequestUrl) == JString(requestUrl)
  {
    JObject(map[
      ErrorId := JString(Decimal(status)),
      Name := JString(statusText),
      Message := JString(GenericMessage(status, statusText)),
      PostData := JString(data),
      RequestUrl := JString(requestUrl)])
  }

  /** The status code can be read back from the envelope's `errorId`. */
  lemma HttpErrorIdDeterminesStatus(s1: nat, t1: string, d1: string, u1: string, r1: bool,
                                    s2: nat, t2: string, d2: string, u2: string, r2: bool)
    requires Field(HttpErrorEnvelope(s1, t1, d1, u1, r1), ErrorId) == Field(HttpErrorEnvelope(s2, t2, d2, u2, r2), ErrorId)
    ensures s1 == s2
  {
    DecimalInjective(s1, s2);
  }

  /** The envelope `PerunException.createNew("0", "Cross-site request", ...)` with the diagnostics attached. */
  function CrossSiteEnvelope(requestUrl: string, postData: string): Json {
    JObject(map[
      ErrorId := JString("0"),
      Name := JString("Cross-site request"),
      Message := JString("Cross-site request was blocked by browser."),
      RequestUrl := JString(requestUrl),
      PostData := JString(postData)])
  }

  /** `handleErrors`: a non-null value goes to `onError` as it is, null is replaced by the cross-site envelope. */
  function HandleErrors(jso: Json, requestUrl: string, postData: string): (ev: Event)
    ensures ev.Failed?
    ensures jso != JNull ==> ev.error == jso
    ensures jso == JNull ==> IsErrorEnvelope(ev.error) && Field(ev.error, ErrorId) == JString("0")
    ensures jso == JNull ==> Field(ev.error, Name) == JString("Cross-site request")
    ensures jso == JNull ==> Field(ev.error, RequestUrl) == JString(requestUrl) && Field(ev.error, PostData) == JString(postData)
  {
    if jso != JNull then Failed(jso) else Failed(CrossSiteEnvelope(requestUrl, postData))
  }

  /** Only a 500 looks at the running entry; every other status is worded by its code alone. */
  lemma WordingDependsOnRunningOnlyFor500(status: nat, statusText: string)
    ensures status != 500 <==> Wording(status, statusText, true) == Wording(status, statusText, false)
  {
    if status == 500 {
      assert Wording(status, statusText, true).0 == "ServerInternalError";
      assert Wording(status, statusText, false).0 == statusText || Wording(status, statusText, false).1 != InternalErrorMessage;
    }
  }
}
