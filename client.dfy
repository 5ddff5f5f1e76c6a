/**
 * `JsonClient` as an object: the payload it accumulates, the request URL of
 * its last call, its running-request map and the trace of everything it
 * hands to its event sink and to the network; the repeating command that
 * polls for a long-running request; and the process-wide recovery counter.
 * Each callback of the source is a method here, proved to perform the
 * matching step of the Protocol module.
 */
module Client {
  import opened Wrappers
  import opened Text
  import opened JsonValues
  import opened ResponseParser
  import opened Payload
  import opened Classifier
  import opened Protocol

  /**
   * The library calls the client makes and this model does not define:
   * `JsonUtils.parseJson`, `JsonUtils.convertToJSON`, `JSONValue.toString`
   * and `URL.encode`.
   */
  datatype Env = Env(
    parseJson: string -> Json,
    convertToJson: Json -> Json,
    stringify: Json -> string,
    urlEncode: string -> string)

  /** What the closures of one `call` capture: the token and the body that was sent. */
  datatype Dispatch = Dispatch(token: string, data: string)

  /** The URL of a call: the prefix and the path, with the callback parameter only when pending-checking is on. */
  function RequestUrlOf(env: Env, urlPrefix: string, url: string, checkIfPending: bool, token: string): string {
    env.urlEncode(urlPrefix + url + (if checkIfPending then "?callback=" + token else ""))
  }

  /** The static `counter` of recoveries in progress, shared by every client. */
  class RecoveryCounter {
    var counter: int

    constructor ()
      ensures counter == 0
    {
      counter := 0;
    }
  }

  class JsonClient {
    const checkIfPending: bool
    const urlPrefix: string
    const env: Env
    const recoveries: RecoveryCounter

    var json: map<string, Json>
    var requestUrl: string
    var runningRequests: map<string, PerunRequest>
    var trace: seq<Event>

    /** The payload's text, as `json.toString()` gives it. */
    function PayloadText(): string
      reads this
    {
      env.stringify(JObject(json))
    }

    ghost function View(): Shared
      reads this, recoveries
    {
      Shared(runningRequests, recoveries.counter, trace)
    }

    constructor (checkIfPending: bool, urlPrefix: string, env: Env, recoveries: RecoveryCounter)
      ensures this.checkIfPending == checkIfPending && this.urlPrefix == urlPrefix
      ensures this.env == env && this.recoveries == recoveries
      ensures json == map[] && runningRequests == map[] && trace == [] && requestUrl == ""
    {
      this.checkIfPending := checkIfPending;
      this.urlPrefix := urlPrefix;
      this.env := env;
      this.recoveries := recoveries;
      json := map[];
      requestUrl := "";
      runningRequests := map[];
      trace := [];
    }

    /** `put(String, JSONValue)`: stores `data` under `key`, replacing what was there. */
    method Put(key: string, data: Json)
      modifies this`json
      ensures json == old(json)[key := data]
    {
      json := json[key := data];
    }

    method PutInt(key: string, data: int32)
      modifies this`json
      ensures json == old(json)[key := JNumber(data as int as real)]
    {
      Put(key, JNumber(data as int as real));
    }

    method PutString(key: string, data: string)
      modifies this`json
      ensures json == old(json)[key := JString(data)]
    {
      Put(key, JString(data));
    }

    method PutBool(key: string, data: bool)
      modifies this`json
      ensures json == old(json)[key := JBool(data)]
    {
      Put(key, JBool(data));
    }

    method PutObject(key: string, data: Json)
      modifies this`json
      ensures json == old(json)[key := env.convertToJson(data)]
    {
      Put(key, env.convertToJson(data));
    }

    /** `put(String, ArrayList)`: converts the elements one by one into a JSON array. */
    method PutList(key: string, data: seq<ListElement>)
      modifies this`json
      ensures json == old(json)[key := JArray(ToJsonArray(data, env.convertToJson))]
    {
      var elements: seq<Json> := [];
      var i := 0;
      while i < |data|
        invariant 0 <= i <= |data|
        invariant elements == ToJsonArray(data[..i], env.convertToJson)
      {
        match ElementToJson(data[i], env.convertToJson) {
          case Some(v) => elements := SetIndex(elements, i, v);
          case None =>
        }
        assert data[..i + 1][..i] == data[..i];
        i := i + 1;
      }
      assert data[..i] == data;
      Put(key, JArray(elements));
    }

    /**
     * `call(url)` up to the point where the request is in flight: the token is
     * the start time's decimal form, the request is registered under it when
     * pending-checking is on, `onLoadingStart` fires and then the POST is sent.
     */
    method Call(url: string, startTime: nat) returns (d: Dispatch)
      modifies this`requestUrl, this`runningRequests, this`trace
      ensures d.token == Decimal(startTime) && d.data == PayloadText()
      ensures runningRequests == if checkIfPending then old(runningRequests)[d.token := PerunRequest(startTime)]
                                 else old(runningRequests)
      ensures requestUrl == RequestUrlOf(env, urlPrefix, url, checkIfPending, d.token)
      ensures trace == old(trace) + [LoadingStart, Post(requestUrl, d.data)]
    {
      var callbackName := Decimal(startTime);
      if checkIfPending {
        runningRequests := runningRequests[callbackName := PerunRequest(startTime)];
      }
      requestUrl := env.urlEncode(urlPrefix + url + (if checkIfPending then "?callback=" + callbackName else ""));
      trace := trace + [LoadingStart];
      var data := env.stringify(JObject(json));
      trace := trace + [Post(requestUrl, data)];
      d := Dispatch(callbackName, data);
    }

    /**
     * `onResponseReceived`. A 200 is delivered by the 200 rule; a 500 that
     * escalates starts a recovery, returned as a fresh polling command; any
     * other status is reported with a synthetic envelope.
     */
    method OnResponse(d: Dispatch, status: nat, statusText: string, text: Option<string>, durationMs: int)
      returns (poll: PollCommand?)
      modifies this`runningRequests, this`trace, recoveries
      ensures var o := Respond(old(View()), checkIfPending, d.token, d.data, requestUrl, PayloadText(),
                               status, statusText, ParseResponse(checkIfPending, d.token, text, env.parseJson),
                               durationMs);
              View() == o.s && (poll != null <==> o.escalated)
      ensures poll != null ==> fresh(poll) && poll.again && poll.client == this && poll.token == d.token
    {
      poll := null;
      var parsed := ParseResponse(checkIfPending, d.token, text, env.parseJson);
      ghost var o := Respond(View(), checkIfPending, d.token, d.data, requestUrl, PayloadText(),
                             status, statusText, parsed, durationMs);
      if parsed.GroupMissing? {
        return;
      }
      var jso := parsed.jso;
      if status == 200 {
        OnSuccess(d, jso);
      } else {
        var running := d.token in runningRequests;
        if status == 500 && running && JavaDiv(durationMs, 1000) >= 5 && checkIfPending {
          recoveries.counter := recoveries.counter + 1;
          poll := new PollCommand(this, d.token);
          assert View() == o.s;
          return;
        }
        OnHttpError(d, status, statusText, running);
      }
    }

    /** The 200 branch of `onResponseReceived`. */
    method OnSuccess(d: Dispatch, jso: Json)
      modifies this`runningRequests, this`trace
      ensures runningRequests == if checkIfPending then old(runningRequests) - {d.token} else old(runningRequests)
      ensures trace == old(trace) + [Deliver(jso, requestUrl, PayloadText())]
    {
      if jso != JNull {
        if IsErrorEnvelope(jso) {
          var error := WithDiagnostics(jso, requestUrl, env.stringify(JObject(json)));
          if checkIfPending { runningRequests := runningRequests - {d.token}; }
          trace := trace + [Failed(error)];
          return;
        }
      }
      if checkIfPending { runningRequests := runningRequests - {d.token}; }
      trace := trace + [Finished(jso)];
    }

    /** The branch of `onResponseReceived` for a status other than 200 that is reported. */
    method OnHttpError(d: Dispatch, status: nat, statusText: string, running: bool)
      modifies this`runningRequests, this`trace
      ensures runningRequests == if checkIfPending then old(runningRequests) - {requestUrl} else old(runningRequests)
      ensures trace == old(trace) + [Failed(HttpErrorEnvelope(status, statusText, d.data, requestUrl, running))]
    {
      var error := HttpErrorEnvelope(status, statusText, d.data, requestUrl, running);
      if checkIfPending { runningRequests := runningRequests - {requestUrl}; }
      trace := trace + [HandleErrors(error, requestUrl, env.stringify(JObject(json)))];
    }

    /** The request's `onError` callback and the `catch` around `sendRequest`: both go through `handleErrors`. */
    method OnTransportError(d: Dispatch, text: string)
      modifies this`trace
      ensures View() == TransportFailure(old(View()), ParseResponse(checkIfPending, d.token, Some(text), env.parseJson),
                                         requestUrl, PayloadText())
    {
      var parsed := ParseResponse(checkIfPending, d.token, Some(text), env.parseJson);
      if parsed.Parsed? {
        trace := trace + [HandleErrors(parsed.jso, requestUrl, env.stringify(JObject(json)))];
      }
    }
  }

  /** The `RepeatingCommand` scheduled for a call that escalated, with its captured `again` flag. */
  class PollCommand {
    const client: JsonClient
    const token: string
    var again: bool

    constructor (client: JsonClient, token: string)
      ensures this.client == client && this.token == token && again
    {
      this.client := client;
      this.token := token;
      again := true;
    }

    ghost function View(): Poll
      reads this, client, client.recoveries
    {
      Poll(again, client.View())
    }

    /** `execute()`: queries the pending request while `again` holds, and asks to be run again exactly then. */
    method Execute() returns (repeat: bool)
      modifies client`trace
      ensures View() == ExecuteStep(old(View()), token)
      ensures repeat == again
    {
      if again {
        client.trace := client.trace + [Query(token)];
      }
      repeat := again;
    }

    /** The callbacks of the pending-request query: `onFinished` with a record, or `onError`, which does nothing. */
    method OnPendingReply(reply: PollReply)
      modifies this, client`runningRequests, client`trace, client.recoveries
      ensures View() == ReplyStep(old(View()), token, client.checkIfPending, client.requestUrl,
                                  client.PayloadText(), reply)
    {
      match reply
      case QueryFailed(_) =>
      case Found(req) =>
        if req.callbackName == token && req.endTime > 0 {
          if again {
            again := false;
            client.recoveries.counter := client.recoveries.counter - 1;
            var result := req.result;
            if result != JNull {
              if IsErrorEnvelope(result) {
                var error := WithDiagnostics(result, client.requestUrl, client.env.stringify(JObject(client.json)));
                if client.checkIfPending { client.runningRequests := client.runningRequests - {token}; }
                client.trace := client.trace + [Failed(error)];
                return;
              }
            }
            if client.checkIfPending { client.runningRequests := client.runningRequests - {token}; }
            client.trace := client.trace + [Finished(result)];
          }
        }
    }
  }
}
