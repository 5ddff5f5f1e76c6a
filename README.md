# JsonClient: an RPC client that survives server-side delays

This project models the core of Perun's web client: `JsonClient`, the class
that sends a remote call to the Perun RPC API as an HTTP POST and reports
the result to an event sink (`onLoadingStart`, `onFinished`, `onError`).
Its parts are:

- **Payload accumulation.** The `put` overloads turn typed values into the
  one JSON object sent as the body. In a list, an enum becomes its string,
  and an element of an unsupported kind leaves a hole.
- **Response unwrapping.** `parseResponse` trims the text and recognises
  `cb(null);` and `null` as null. It strips the callback wrapper `cb(...)` /
  `cb(...);` with the greedy regular expression `^cb\((.*)\)|\);$` and hands
  the rest to the JSON parser.
- **Classification.** A 200 goes to `onFinished`, unless the value has an
  application error's shape (`errorId` and `message` set); then it goes to
  `onError` with the request URL and payload attached. Any other status
  builds a synthetic error envelope whose name and message depend on
  401/403, 404, 500, 503 and 0. A transport failure goes through
  `handleErrors`, which replaces a null value by the "Cross-site request"
  envelope.
- **Long-poll recovery.** A 500 for a call that is still registered, with
  pending-checking on and at least five seconds elapsed, is not reported.
  Instead a repeating command polls the pending-request endpoint until a
  record for the token has a positive end time. That first record is then
  delivered by the 200 rule, exactly once. The process-wide `counter` of
  recoveries in progress goes up once when polling starts and down once when
  it ends.

Layout:

- `wrappers.dfy`: `Option`.
- `json_values.dfy`: JSON values. A Java null is `JNull`, and a missing
  property reads as null.
- `text.dfy`: `"" + n`, `String.trim`, `equalsIgnoreCase`, Java's truncating
  `/`, and the pieces of regular-expression matching used here.
- `response_parser.dfy`: `parseResponse`.
- `payload.dfy`: the element conversions of `put(String, ArrayList)`.
- `classifier.dfy`: the sink events, the 200 rule, the error envelopes and
  `handleErrors`.
- `protocol.dfy`: every callback of `call` as a pure step over the shared
  state: the running-request map, the counter, and the trace of effects. It
  also holds the lemmas about whole runs: at most one delivery, the counter
  balanced, other tokens untouched.
- `client.dfy`: the classes `JsonClient`, `PollCommand` (the
  `RepeatingCommand` with its `again` flag) and `RecoveryCounter` (the static
  `counter`). The response and polling callbacks (`OnResponse`,
  `OnTransportError`, `PollCommand.Execute`, `PollCommand.OnPendingReply`)
  are proved to perform the matching step of `protocol.dfy`. The `put`
  methods, `Call`, `OnSuccess` and `OnHttpError` are specified directly by
  their new state.

The network and the timer are not modelled. Every resumption is a method
that the caller invokes:

- `Call` dispatches the request.
- `OnResponse` and `OnTransportError` handle the answer.
- `PollCommand.Execute` is a timer tick.
- `PollCommand.OnPendingReply` is a reply to a pending-request query.

Time enters as inputs: the start time that names the token, and the
milliseconds `getDuration()` reports.

Four library calls are fields of an `Env` value given to the constructor:
`JsonUtils.parseJson`, `JsonUtils.convertToJSON`, `JSONValue.toString` and
`URL.encode`.

Five behaviours of the code differ from what one might expect of it; the
model follows the code:

- An empty payload is not sent as an empty body. The body is
  `json.toString()` whenever `json` is an object. The field is created as an
  empty `JSONObject` and never reassigned, so an empty payload is sent as the
  text of an empty object.
- The escalation threshold is `getDuration() / 1000 >= 5`: five seconds,
  although the comment at line 291 says five minutes.
- White-space-only text is not null. It is non-empty, so it passes the
  emptiness test, trims to "", and "" goes to the JSON parser
  (`UnwrapWhitespaceOnly`).
- On a reported HTTP error, the entry removed is keyed by the request URL,
  not by the token. The token's entry therefore stays registered
  (`HttpErrorKeepsTokenEntry`).
- Group 1 of the regular expression can be undefined, and the source then
  calls a method on a null string. This happens when the text ends in `);`
  and the first alternative fails. The first alternative fails when the text
  does not start with `cb(`, or when it does but no `)` comes before the
  first line break. A wrapped payload printed over several lines,
  `cb({` newline `...});`, is such a case (`UnwrapMultiLineExample`).

## Model

| member | source | states |
|---|---|---|
| Text.Decimal | perun-wui-core/src/main/java/cz/metacentrum/perun/wui/json/JsonClient.java:226 | the token `getStartTime()+""` and the `errorId` `""+status` are non-empty strings of decimal digits whose last digit is `n % 10` |
| Text.DecimalInjective | perun-wui-core/src/main/java/cz/metacentrum/perun/wui/json/JsonClient.java:224-228 | two start times with the same token are equal, so a token names one call's entry |
| Text.JavaDiv | perun-wui-core/src/main/java/cz/metacentrum/perun/wui/json/JsonClient.java:292 | Java `int` division truncates toward zero: the remainder `a - q * b` lies in `[0, b)` when `a >= 0` and in `(-b, 0]` when `a < 0` |
| Text.TrimStart | perun-wui-core/src/main/java/cz/metacentrum/perun/wui/json/JsonClient.java:448 | the result is a suffix of the input that starts with a character above U+0020, and everything dropped is at most U+0020 |
| Text.TrimEnd | perun-wui-core/src/main/java/cz/metacentrum/perun/wui/json/JsonClient.java:448 | the result is a prefix of the input that ends with a character above U+0020, and everything dropped is at most U+0020 |
| Text.Trim | perun-wui-core/src/main/java/cz/metacentrum/perun/wui/json/JsonClient.java:448 | `String.trim`: the result is empty iff every input character is at most U+0020; otherwise both its ends are above U+0020; text with such ends is unchanged |
| Text.LeadingBlanks | perun-wui-core/src/main/java/cz/metacentrum/perun/wui/json/JsonClient.java:448 | the length of the longest prefix of characters up to U+0020: every character before it is at most U+0020, and the one at it, if any, is above |
| Text.TrimIsInfix | perun-wui-core/src/main/java/cz/metacentrum/perun/wui/json/JsonClient.java:448 | `trim` keeps exactly the part of the input that starts after the leading blanks, and every character after it is at most U+0020 |
| Text.EqualsIgnoreCase | perun-wui-core/src/main/java/cz/metacentrum/perun/wui/json/JsonClient.java:451-463 | `equalsIgnoreCase`: equal lengths, and the characters agree pairwise after ASCII lower-casing (no contract; used by `Unwrap` and its lemmas) |
| Text.TakeLine | perun-wui-core/src/main/java/cz/metacentrum/perun/wui/json/JsonClient.java:456 | what `.*` can span: the longest prefix free of line terminators, followed by a terminator or by the end |
| Text.LastIndexOf | perun-wui-core/src/main/java/cz/metacentrum/perun/wui/json/JsonClient.java:456 | where the greedy `(.*)\)` stops: `Some(j)` iff `s[j]` is the last occurrence of the character, `None` iff it does not occur |
| JsonValues.Field | perun-wui-core/src/main/java/cz/metacentrum/perun/wui/json/JsonClient.java:257 | an overlay getter: a non-null result is the property of an object; a missing property, or any property of a non-object, reads as null |
| JsonValues.SetField | perun-wui-core/src/main/java/cz/metacentrum/perun/wui/json/JsonClient.java:258-259 | an overlay setter: the property reads back as the value, and every other property is unchanged |
| ResponseParser.MatchWrapper | perun-wui-core/src/main/java/cz/metacentrum/perun/wui/json/JsonClient.java:456-460 | a group is found iff the text starts with `cb(` and a `)` comes before the first line terminator after it. The group is greedy: it runs up to the last such `)`, no `)` follows it on that line, `cb(` + group + `)` is a prefix of the text, and the group holds no line terminator. The bare-suffix result comes only for text ending in `);`, and no match only for text that does not |
| ResponseParser.GreedyGroup | perun-wui-core/src/main/java/cz/metacentrum/perun/wui/json/JsonClient.java:456-459 | where the last `)` on the first line after `cb(` lies, the group before it is one line, `cb(` + group + `)` begins the text, and no later `)` appears on that line |
| ResponseParser.EffectiveCallback | perun-wui-core/src/main/java/cz/metacentrum/perun/wui/json/JsonClient.java:443 | the name looked for: the call's token with pending-checking on, `null` otherwise (no contract; `UnwrapIgnoresTokenWhenNotPending` states its effect) |
| ResponseParser.UnwrapNamed | perun-wui-core/src/main/java/cz/metacentrum/perun/wui/json/JsonClient.java:445-465 | the steps of `parseResponse` before the JSON parser, for a given name (no contract; `Unwrap` carries it) |
| ResponseParser.Unwrap | perun-wui-core/src/main/java/cz/metacentrum/perun/wui/json/JsonClient.java:440-465 | null or empty text gives null; trimmed text equal, ignoring case, to `cb(null);` gives null; text handed to the parser never reads as `null`; the undefined group arises only for text ending in `);` |
| ResponseParser.ParseResponse | perun-wui-core/src/main/java/cz/metacentrum/perun/wui/json/JsonClient.java:440-471 | null where unwrapping gives null; otherwise the parser's value for the unwrapped text, or "group missing" exactly where the source dereferences the undefined group |
| ResponseParser.GroupOfRest | perun-wui-core/src/main/java/cz/metacentrum/perun/wui/json/JsonClient.java:456-459 | after `cb(`, the greedy group of `p)` or `p);` is exactly `p` when `p` stays on one line |
| ResponseParser.WrapTrims | perun-wui-core/src/main/java/cz/metacentrum/perun/wui/json/JsonClient.java:448 | trimming leaves the wrapped text `cb(p)` / `cb(p);` unchanged |
| ResponseParser.WrapMatches | perun-wui-core/src/main/java/cz/metacentrum/perun/wui/json/JsonClient.java:456-459 | the regular expression gives back `p` as group 1 of `cb(p)` and of `cb(p);` |
| ResponseParser.WrapIsNullText | perun-wui-core/src/main/java/cz/metacentrum/perun/wui/json/JsonClient.java:451 | wrapped text reads as `cb(null);` only when the wrapper ends in `;` and `p` reads as `null` |
| ResponseParser.UnwrapWrapped | perun-wui-core/src/main/java/cz/metacentrum/perun/wui/json/JsonClient.java:443-468 | round trip: unwrapping `cb(p)` or `cb(p);`, for the effective callback name, hands exactly `p` to the parser (null when `p` reads as `null`) |
| ResponseParser.EqualsIgnoreCaseKeepsCloseSemicolon | perun-wui-core/src/main/java/cz/metacentrum/perun/wui/json/JsonClient.java:451 | text that equals, ignoring case, a text ending in `);` itself ends in `);` |
| ResponseParser.UnwrapBare | perun-wui-core/src/main/java/cz/metacentrum/perun/wui/json/JsonClient.java:445-468 | text that neither starts with `cb(` nor ends with `);` reaches the parser trimmed and otherwise unchanged (null when it reads as `null`) |
| ResponseParser.UnwrapIgnoresTokenWhenNotPending | perun-wui-core/src/main/java/cz/metacentrum/perun/wui/json/JsonClient.java:443 | with pending-checking off, the call's token plays no part, and the name `null` is used instead |
| ResponseParser.UnwrapWhitespaceOnly | perun-wui-core/src/main/java/cz/metacentrum/perun/wui/json/JsonClient.java:445-468 | every non-empty text made only of characters up to U+0020 is not null: "" is handed to the parser |
| ResponseParser.UnwrapMultiLineExample | perun-wui-core/src/main/java/cz/metacentrum/perun/wui/json/JsonClient.java:456-463 | `1(` newline `2);` with token `1`: the first alternative finds no `)` before the line break, so group 1 is undefined |
| ResponseParser.UnwrapNullExample | perun-wui-core/src/main/java/cz/metacentrum/perun/wui/json/JsonClient.java:451-453 | `tok123(null);` with token `tok123` gives null |
| ResponseParser.UnwrapObjectExample | perun-wui-core/src/main/java/cz/metacentrum/perun/wui/json/JsonClient.java:456-468 | `tok123({"a":1})` with token `tok123` hands `{"a":1}` to the parser |
| Payload.ElementToJson | perun-wui-core/src/main/java/cz/metacentrum/perun/wui/json/JsonClient.java:191-201 | an enum becomes its string; a JavaScriptObject becomes its `convertToJSON` conversion; Integer, String and Boolean become a number, a string and a boolean; only an element of another kind gives nothing |
| Payload.SetIndex | perun-wui-core/src/main/java/cz/metacentrum/perun/wui/json/JsonClient.java:192-200 | `JSONArray.set(i, v)`: slot `i` reads `v`; the array grows to `i + 1` when `i` is past its end; the slots in between read as null; other slots are unchanged |
| Payload.ToJsonArray | perun-wui-core/src/main/java/cz/metacentrum/perun/wui/json/JsonClient.java:188-202 | element `i` of the array is the conversion of list element `i` (null for an unsupported one); the array ends at the last supported element, and every element after it is unsupported |
| Payload.ToJsonArrayOfSupported | perun-wui-core/src/main/java/cz/metacentrum/perun/wui/json/JsonClient.java:188-202 | when every element is of a supported kind, the array has one converted element per list element, in order |
| Classifier.Deliveries | perun-wui-core/src/main/java/cz/metacentrum/perun/wui/json/JsonClient.java:261-269 | the number of `onFinished`/`onError` notifications in a trace: at most its length, and zero iff it holds none |
| Classifier.DeliveriesAppend | perun-wui-core/src/main/java/cz/metacentrum/perun/wui/json/JsonClient.java:261-269 | counting notifications distributes over concatenation of traces |
| Classifier.IsErrorEnvelope | perun-wui-core/src/main/java/cz/metacentrum/perun/wui/json/JsonClient.java:257 | the application-error shape: `errorId` and `message` both read as non-null (no contract; used by `Deliver`) |
| Classifier.WithDiagnostics | perun-wui-core/src/main/java/cz/metacentrum/perun/wui/json/JsonClient.java:258-259 | `requestURL` and `postData` are set on the error; every other property is unchanged |
| Classifier.Deliver | perun-wui-core/src/main/java/cz/metacentrum/perun/wui/json/JsonClient.java:253-269 | the 200 rule delivers exactly once. `onError` iff the value has both `errorId` and `message`, carrying the request URL, the payload and all other properties of the value; otherwise `onFinished` with the value itself, null included |
| Classifier.Rename | perun-wui-core/src/main/java/cz/metacentrum/perun/wui/json/JsonClient.java:284-285 | `setName` and `setMessage`: those two properties read back, every other one is unchanged |
| Classifier.Wording | perun-wui-core/src/main/java/cz/metacentrum/perun/wui/json/JsonClient.java:277-387 | name and message by status: "Not Authorized" for 401/403, "ServerInternalError" for 500 with a running entry, "Server Temporarily Unavailable" for 503, "Not found" for 404, "Aborted" for 0; otherwise the status text and "Server responded with HTTP error: <status> - <text>" |
| Classifier.GenericEnvelope | perun-wui-core/src/main/java/cz/metacentrum/perun/wui/json/JsonClient.java:275-280 | the first envelope built for a non-200 status: `errorId` is the status in decimal, `name` is the status text, the generic message, the body that was sent and the request URL |
| Classifier.HttpErrorEnvelope | perun-wui-core/src/main/java/cz/metacentrum/perun/wui/json/JsonClient.java:275-387 | the reported envelope has exactly the five properties; it is an error envelope; `errorId` is the status, `postData` is the body sent, `requestURL` is the URL; name and message are as `Wording` gives them |
| Classifier.HttpErrorIdDeterminesStatus | perun-wui-core/src/main/java/cz/metacentrum/perun/wui/json/JsonClient.java:276 | two envelopes with equal `errorId` come from the same status |
| Classifier.WordingDependsOnRunningOnlyFor500 | perun-wui-core/src/main/java/cz/metacentrum/perun/wui/json/JsonClient.java:287-370 | the running entry changes the wording exactly for status 500 |
| Classifier.CrossSiteEnvelope | perun-wui-core/src/main/java/cz/metacentrum/perun/wui/json/JsonClient.java:425-427 | the `createNew("0", "Cross-site request", ...)` envelope with the URL and the payload (no contract; `HandleErrors` states its properties) |
| Classifier.HandleErrors | perun-wui-core/src/main/java/cz/metacentrum/perun/wui/json/JsonClient.java:420-430 | always `onError`: a non-null value as it is; null replaced by an envelope with `errorId` "0", name "Cross-site request", the request URL and the payload |
| Protocol.Escalates | perun-wui-core/src/main/java/cz/metacentrum/perun/wui/json/JsonClient.java:289-292 | the condition for starting a recovery: the token is registered, the elapsed time passes the threshold, pending-checking is on (no contract; `EscalationThreshold` restates the threshold in milliseconds) |
| Protocol.EscalationThreshold | perun-wui-core/src/main/java/cz/metacentrum/perun/wui/json/JsonClient.java:292 | `getDuration()/1000 >= 5` with truncating division holds iff at least 5000 ms have elapsed |
| Protocol.Respond | perun-wui-core/src/main/java/cz/metacentrum/perun/wui/json/JsonClient.java:244-394 | polling starts iff the status is 500, the token is registered, pending-checking is on and the threshold is met. It then raises the counter by one and delivers nothing. Otherwise exactly one notification is appended: by the 200 rule (token entry removed) or as the status's envelope (entry keyed by the URL removed). The counter and the map are unchanged where the source leaves them |
| Protocol.TransportFailure | perun-wui-core/src/main/java/cz/metacentrum/perun/wui/json/JsonClient.java:396-408 | a transport failure appends exactly `handleErrors` of the parsed failure text, and changes neither the map nor the counter |
| Protocol.ExecuteStep | perun-wui-core/src/main/java/cz/metacentrum/perun/wui/json/JsonClient.java:303-358 | a tick issues one query for the token iff `again`, and changes nothing else |
| Protocol.Resolves | perun-wui-core/src/main/java/cz/metacentrum/perun/wui/json/JsonClient.java:310 | a record resolves the token when its callback name is the token and its end time is positive (no contract; used by `ReplyStep`) |
| Protocol.ReplyStep | perun-wui-core/src/main/java/cz/metacentrum/perun/wui/json/JsonClient.java:305-355 | a reply ends the recovery iff it resolves the token (same callback name, end time > 0) while `again` holds. It then lowers the counter once, removes the entry and delivers the result by the 200 rule; any other reply, a query error included, changes nothing |
| Protocol.RunAfterResolved | perun-wui-core/src/main/java/cz/metacentrum/perun/wui/json/JsonClient.java:304-357 | once `again` is false, no sequence of ticks and replies changes anything |
| Protocol.PollStepAccounting | perun-wui-core/src/main/java/cz/metacentrum/perun/wui/json/JsonClient.java:303-349 | one tick or reply while polling: it ends the recovery iff it resolves the token; then it delivers once, lowers the counter by one and removes the token's entry; otherwise it delivers nothing and keeps counter and map |
| Protocol.RunDeliversAtMostOnce | perun-wui-core/src/main/java/cz/metacentrum/perun/wui/json/JsonClient.java:299-359 | over any ticks and replies: delivered iff some reply resolves the token; deliveries grow by at most one; the counter drops by one exactly when delivered; other tokens' entries are untouched; the token's entry is gone once delivered |
| Protocol.ResponseThenRecovery | perun-wui-core/src/main/java/cz/metacentrum/perun/wui/json/JsonClient.java:244-394 | a response plus any later polling delivers the call at most once. It stays undelivered only while a recovery is open, and then the counter is one above its start; otherwise it is back where it started |
| Protocol.HttpErrorKeepsTokenEntry | perun-wui-core/src/main/java/cz/metacentrum/perun/wui/json/JsonClient.java:389-390 | a reported HTTP error delivers once and leaves the token's entry as it was (the removal is keyed by the URL) |
| Protocol.LongRunningCallScenario | perun-wui-core/src/main/java/cz/metacentrum/perun/wui/json/JsonClient.java:287-361 | a 500 after 5 s starts polling; one tick and one resolving reply give exactly `Query, Finished(result)`, the entry removed and the counter restored |
| Client.RecoveryCounter.constructor | perun-wui-core/src/main/java/cz/metacentrum/perun/wui/json/JsonClient.java:61 | the counter starts at zero |
| Client.RequestUrlOf | perun-wui-core/src/main/java/cz/metacentrum/perun/wui/json/JsonClient.java:231 | the encoded prefix + path, with `?callback=<token>` only when pending-checking is on (no contract; `Call` uses it) |
| Client.JsonClient.constructor | perun-wui-core/src/main/java/cz/metacentrum/perun/wui/json/JsonClient.java:116-119 | a new client has an empty payload, no running requests and an empty trace |
| Client.JsonClient.PayloadText | perun-wui-core/src/main/java/cz/metacentrum/perun/wui/json/JsonClient.java:240 | the body text: `JSONValue.toString` of the payload object (no contract; the library call is a parameter) |
| Client.JsonClient.Put | perun-wui-core/src/main/java/cz/metacentrum/perun/wui/json/JsonClient.java:212-214 | the value is stored under the key, replacing an earlier one; nothing else changes |
| Client.JsonClient.PutInt | perun-wui-core/src/main/java/cz/metacentrum/perun/wui/json/JsonClient.java:148-150 | stores the number |
| Client.JsonClient.PutString | perun-wui-core/src/main/java/cz/metacentrum/perun/wui/json/JsonClient.java:158-160 | stores the string |
| Client.JsonClient.PutBool | perun-wui-core/src/main/java/cz/metacentrum/perun/wui/json/JsonClient.java:168-170 | stores the boolean |
| Client.JsonClient.PutObject | perun-wui-core/src/main/java/cz/metacentrum/perun/wui/json/JsonClient.java:178-180 | stores the object's JSON conversion |
| Client.JsonClient.PutList | perun-wui-core/src/main/java/cz/metacentrum/perun/wui/json/JsonClient.java:188-204 | the loop stores exactly `ToJsonArray` of the list under the key |
| Client.JsonClient.Call | perun-wui-core/src/main/java/cz/metacentrum/perun/wui/json/JsonClient.java:222-242 | the token is the start time in decimal, registered before sending iff pending-checking is on; the URL is prefix + path, with `?callback=<token>` only when pending-checking is on; the body is the payload's text; `onLoadingStart` fires once, before the POST |
| Client.JsonClient.OnResponse | perun-wui-core/src/main/java/cz/metacentrum/perun/wui/json/JsonClient.java:244-394 | performs exactly `Respond` on the client's state, and returns a fresh polling command, with `again` set, iff polling starts |
| Client.JsonClient.OnSuccess | perun-wui-core/src/main/java/cz/metacentrum/perun/wui/json/JsonClient.java:250-269 | removes the token's entry when pending-checking is on, then appends the 200 rule's delivery |
| Client.JsonClient.OnHttpError | perun-wui-core/src/main/java/cz/metacentrum/perun/wui/json/JsonClient.java:273-390 | removes the URL-keyed entry when pending-checking is on, then appends `onError` with the status's envelope |
| Client.JsonClient.OnTransportError | perun-wui-core/src/main/java/cz/metacentrum/perun/wui/json/JsonClient.java:396-408 | performs exactly `TransportFailure` |
| Client.PollCommand.constructor | perun-wui-core/src/main/java/cz/metacentrum/perun/wui/json/JsonClient.java:299-300 | a new command for the token starts with `again` true |
| Client.PollCommand.Execute | perun-wui-core/src/main/java/cz/metacentrum/perun/wui/json/JsonClient.java:303-358 | performs exactly `ExecuteStep`, and asks to be scheduled again iff `again` |
| Client.PollCommand.OnPendingReply | perun-wui-core/src/main/java/cz/metacentrum/perun/wui/json/JsonClient.java:305-355 | performs exactly `ReplyStep` on the command, the client and the shared counter |

## Left out

- The modal dialog, its `Paragraph`, the `shown` flag and the HTML text of the notification (lines 60-109, 295-297, 316-319). They are presentation only; the counter they display is modelled.
- GWT's `RequestBuilder`, `Request` and `Scheduler.scheduleFixedDelay`, and `UtilsManager.getPendingRequest`. The network and the timer are replaced by the resumption methods, which a caller invokes in any order. The `Request` that `call` returns is not modelled, and neither is the refresh interval read through `GWT.create(PerunWebConstants)`.
- `JsonUtils.parseJson`, `JsonUtils.convertToJSON`, `JSONValue.toString` and `URL.encode` are fields of `Env`. Apart from being functions, nothing is assumed about them. So the model does not state that a value put into the payload reads back the same after `toString` and `parseJson`. Nor does it state that an empty payload's text is `{}`: `Call` only says the body is `stringify` of the payload object.
- `Env.parseJson` is total: the model assumes `JsonUtils.parseJson` returns normally on every text. `onResponseReceived` parses before it looks at the status (line 247). A parser that throws, say on an HTML error page sent with a 500, would stop every branch, escalation included; that exceptional path is not modelled.
- Call: the `catch (RequestException)` path (lines 405-408) is not split from the normal one. `Call` always records the `Post` in the trace, even though in that path `sendRequest` threw and nothing was sent. `OnTransportError` models the `handleErrors` call that follows.
- `PerunSession.getRpcUrl()` is the `urlPrefix` constructor argument. `PerunRequest.setStartTime`/`getDuration` are the `startTime` and `durationMs` inputs. `PerunException` is a JSON object read through properties named after its accessors (`errorId`, `name`, `message`, `requestURL`, `postData`); its class is not part of this model.
- The `JsonEvents` argument of the constructors. The sink is the client's `trace`, so the default sink and a caller's sink look the same.
- ParseResponse: group 1 is undefined when the text ends in `);` and the first alternative fails. The first alternative fails when the text lacks the `cb(` prefix, or has it with no `)` before the first line break. In that case the model returns `GroupMissing` and the handlers make no change; what the runtime then does with the null dereference is not modelled.
- Text.LowerAscii: `equalsIgnoreCase` folds ASCII letters only. The texts compared are `null` and a digit token, and no other character folds to their letters. Java's UTF-16 code units are modelled as Unicode scalar values.
- The callback name is inserted into the regular expression unescaped. The model reads it literally, which is exact for the decimal tokens and `null` that occur.
- JSON numbers are `real`. A list element that is `null` (which would throw at `getClass()`) is not a `ListElement`. An enum constant's `toString()` is given as its text, and the corner case of an enum constant with a body is not modelled.
- The JavaScript ordering of object keys, which only `JSONValue.toString` would reveal.
- The static counter is a Java `int`. Its 32-bit wrap-around is not modelled, as it needs 2^31 concurrent recoveries.
- `SummaryStep.java`, `CompleteInfoView.java` and `PerunPwdReset.java` are rendering, view wiring and dependency-injection code built on the client; none of them is part of this model.
