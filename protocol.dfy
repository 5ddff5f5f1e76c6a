/**
 * The call lifecycle of `JsonClient.call` as pure steps over the state the
 * client shares between its callbacks: the running-request map, the
 * process-wide count of recoveries in progress and the trace of effects.
 * The methods of the Client module are proved to perform exactly these steps;
 * the lemmas here state what the steps promise over whole runs.
 */
module Protocol {
  import opened Text
  import opened JsonValues
  import opened ResponseParser
  import opened Classifier

  /** The entry `call` registers under the token; `getDuration()` enters as an input. */
  datatype PerunRequest = PerunRequest(startTime: nat)

  /** What a pending-request query returns: the record the server keeps for a token. */
  datatype PendingRecord = PendingRecord(callbackName: string, endTime: int, result: Json)

  /** The two outcomes of `UtilsManager.getPendingRequest`: a record, or an error. */
  datatype PollReply = Found(record: PendingRecord) | QueryFailed(error: Json)

  /** The state shared by the callbacks of a client. */
  datatype Shared = Shared(running: map<string, PerunRequest>, counter: int, trace: seq<Event>)

  /**
   * The 500 that is taken for an intermediary's timeout: the token is still
   * registered, pending-checking is on and at least five seconds (the code
   * divides the milliseconds by 1000 and compares with 5) have passed.
   */
  predicate Escalates(checkIfPending: bool, running: map<string, PerunRequest>, token: string, durationMs: int) {
    token in running && JavaDiv(durationMs, 1000) >= 5 && checkIfPending
  }

  lemma EscalationThreshold(durationMs: int)
    ensures JavaDiv(durationMs, 1000) >= 5 <==> durationMs >= 5000
  {
  }

  /** The effect of `onResponseReceived`: the new shared state, and whether polling starts. */
  datatype Outcome = Outcome(s: Shared, escalated: bool)

  /**
   * `onResponseReceived` for the call with token `token` and body `data`.
   * `requestUrl` and `payload` (the payload's text) are read when the
   * response arrives, as the callback reads the client's fields.
   */
  function Respond(s: Shared, checkIfPending: bool, token: string, data: string, requestUrl: string, payload: string,
                   status: nat, statusText: string, parsed: ParseOutcome, durationMs: int): (o: Outcome)
    ensures o.escalated <==> parsed.Parsed? && status == 500 && Escalates(checkIfPending, s.running, token, durationMs)
    ensures o.s.counter == s.counter + (if o.escalated then 1 else 0)
    ensures o.escalated || parsed.GroupMissing? ==> o.s.trace == s.trace
    ensures !o.escalated && parsed.Parsed? ==> exists ev :: IsDelivery(ev) && o.s.trace == s.trace + [ev]
    ensures parsed.Parsed? && status == 200 ==> o.s.trace == s.trace + [Deliver(parsed.jso, requestUrl, payload)]
    ensures parsed.Parsed? && status == 200 && checkIfPending ==> o.s.running == s.running - {token}
    ensures parsed.Parsed? && status != 200 && !o.escalated ==>
              o.s.trace == s.trace + [Failed(HttpErrorEnvelope(status, statusText, data, requestUrl, token in s.running))]
    ensures parsed.Parsed? && status != 200 && checkIfPending && !o.escalated ==> o.s.running == s.running - {requestUrl}
    ensures !checkIfPending || o.escalated || parsed.GroupMissing? ==> o.s.running == s.running
  {
    match parsed
    case GroupMissing => Outcome(s, false)
    case Parsed(jso) =>
      if status == 200 then
        var running := if checkIfPending then s.running - {token} else s.running;
        Outcome(Shared(running, s.counter, s.trace + [Deliver(jso, requestUrl, payload)]), false)
      else if status == 500 && Escalates(checkIfPending, s.running, token, durationMs) then
        Outcome(s.(counter := s.counter + 1), true)
      else
        var error := HttpErrorEnvelope(status, statusText, data, requestUrl, token in s.running);
        var running := if checkIfPending then s.running - {requestUrl} else s.running;
        Outcome(Shared(running, s.counter, s.trace + [HandleErrors(error, requestUrl, payload)]), false)
  }

  /** The `onError` callback of the request, and the `catch` around `sendRequest`. */
  function TransportFailure(s: Shared, parsed: ParseOutcome, requestUrl: string, payload: string): (r: Shared)
    ensures r.running == s.running && r.counter == s.counter
    ensures parsed.GroupMissing? ==> r.trace == s.trace
    ensures parsed.Parsed? ==> r.trace == s.trace + [HandleErrors(parsed.jso, requestUrl, payload)]
  {
    match parsed
    case GroupMissing => s
    case Parsed(jso) => s.(trace := s.trace + [HandleErrors(jso, requestUrl, payload)])
  }

  /** The state of one recovery: the command's `again` flag and the shared state. */
  datatype Poll = Poll(again: bool, s: Shared)

  /** `execute()` of the repeating command: while `again`, it queries the pending request. */
  function ExecuteStep(p: Poll, token: string): (q: Poll)
    ensures q.again == p.again && q.s.running == p.s.running && q.s.counter == p.s.counter
    ensures q.s.trace == p.s.trace + (if p.again then [Query(token)] else [])
  {
    if p.again then p.(s := p.s.(trace := p.s.trace + [Query(token)])) else p
  }

  /** The record answers the query for `token` and says the operation has ended. */
  predicate Resolves(token: string, reply: PollReply) {
    reply.Found? && reply.record.callbackName == token && reply.record.endTime > 0
  }

  /**
   * The callbacks handed to `getPendingRequest`: a query error is ignored; the
   * first record that resolves the token ends the recovery and delivers its result.
   */
  function ReplyStep(p: Poll, token: string, checkIfPending: bool, requestUrl: string, payload: string,
                     reply: PollReply): (q: Poll)
    ensures (Resolves(token, reply) && p.again) <==> (p.again && !q.again)
    ensures !(Resolves(token, reply) && p.again) ==> q == p
    ensures Resolves(token, reply) && p.again ==>
              q.s.counter == p.s.counter - 1 &&
              q.s.trace == p.s.trace + [Deliver(reply.record.result, requestUrl, payload)] &&
              q.s.running == if checkIfPending then p.s.running - {token} else p.s.running
  {
    if Resolves(token, reply) && p.again then
      var running := if checkIfPending then p.s.running - {token} else p.s.running;
      Poll(false, Shared(running, p.s.counter - 1, p.s.trace + [Deliver(reply.record.result, requestUrl, payload)]))
    else p
  }

  /** One event of a recovery: a timer tick, or a query reply read with the client's fields as they then are. */
  datatype PollInput = Tick | Reply(reply: PollReply, requestUrl: string, payload: string)

  function PollStep(p: Poll, token: string, checkIfPending: bool, input: PollInput): Poll {
    match input
    case Tick => ExecuteStep(p, token)
    case Reply(reply, requestUrl, payload) => ReplyStep(p, token, checkIfPending, requestUrl, payload, reply)
  }

  /** A recovery after the events `inputs`. */
  function Run(p: Poll, token: string, checkIfPending: bool, inputs: seq<PollInput>): Poll
    decreases |inputs|
  {
    if inputs == [] then p else Run(PollStep(p, token, checkIfPending, inputs[0]), token, checkIfPending, inputs[1..])
  }

  predicate ResolvingInput(token: string, input: PollInput) {
    input.Reply? && Resolves(token, input.reply)
  }

  /** Once `again` is false, nothing a recovery receives changes anything: no query, no delivery. */
  lemma {:induction false} RunAfterResolved(p: Poll, token: string, checkIfPending: bool, inputs: seq<PollInput>)
    requires !p.again
    ensures Run(p, token, checkIfPending, inputs) == p
    decreases |inputs|
  {
    if inputs != [] {
      assert PollStep(p, token, checkIfPending, inputs[0]) == p;
      RunAfterResolved(p, token, checkIfPending, inputs[1..]);
    }
  }

  /**
   * One tick or reply of a recovery that is still polling: it either keeps
   * polling and delivers nothing, or it is a resolving reply that delivers
   * once, lowers the counter and removes the token's entry.
   */
  lemma PollStepAccounting(p: Poll, token: string, checkIfPending: bool, input: PollInput)
    requires p.again
    ensures var q := PollStep(p, token, checkIfPending, input);
            && (!q.again <==> ResolvingInput(token, input))
            && Deliveries(q.s.trace) == Deliveries(p.s.trace) + (if q.again then 0 else 1)
            && q.s.counter == p.s.counter - (if q.again then 0 else 1)
            && q.s.running - {token} == p.s.running - {token}
            && (!q.again && checkIfPending ==> token !in q.s.running)
  {
    var q := PollStep(p, token, checkIfPending, input);
    match input {
      case Tick =>
        DeliveriesAppend(p.s.trace, [Query(token)]);
        assert Deliveries([Query(token)]) == 0;
      case Reply(reply, requestUrl, payload) =>
        if !q.again {
          var ev := Deliver(reply.record.result, requestUrl, payload);
          DeliveriesAppend(p.s.trace, [ev]);
          assert Deliveries([ev]) == 1 by {
            assert [ev][..0] == [];
          }
        }
    }
  }

  /**
   * Whatever ticks and replies a recovery receives: it delivers at most once,
   * it delivers exactly when some reply resolves the token, it lowers the
   * counter once when it delivers and not otherwise, and it never touches the
   * entry of another token.
   */
  lemma {:induction false} RunDeliversAtMostOnce(p: Poll, token: string, checkIfPending: bool, inputs: seq<PollInput>)
    requires p.again
    ensures var q := Run(p, token, checkIfPending, inputs);
            && (!q.again <==> exists k :: 0 <= k < |inputs| && ResolvingInput(token, inputs[k]))
            && Deliveries(q.s.trace) == Deliveries(p.s.trace) + (if q.again then 0 else 1)
            && q.s.counter == p.s.counter - (if q.again then 0 else 1)
            && q.s.running - {token} == p.s.running - {token}
            && (!q.again && checkIfPending ==> token !in q.s.running)
    decreases |inputs|
  {
    if inputs != [] {
      var p' := PollStep(p, token, checkIfPending, inputs[0]);
      var rest := inputs[1..];
      var q := Run(p', token, checkIfPending, rest);
      assert Run(p, token, checkIfPending, inputs) == q;
      PollStepAccounting(p, token, checkIfPending, inputs[0]);
      if p'.again {
        RunDeliversAtMostOnce(p', token, checkIfPending, rest);
        if !q.again {
          var k :| 0 <= k < |rest| && ResolvingInput(token, rest[k]);
          assert inputs[k + 1] == rest[k];
        } else {
          forall k | 0 <= k < |inputs| ensures !ResolvingInput(token, inputs[k]) {
            if k > 0 { assert inputs[k] == rest[k - 1]; }
          }
        }
      } else {
        RunAfterResolved(p', token, checkIfPending, rest);
      }
    }
  }

  /**
   * The whole life of a call after its response arrives: the response either
   * ends the call with one delivery, or starts a recovery that raises the
   * counter. Together with any later ticks and replies, the call is delivered
   * at most once, and once delivered the counter is back where it started.
   */
  lemma ResponseThenRecovery(s: Shared, checkIfPending: bool, token: string, data: string, requestUrl: string,
                             payload: string, status: nat, statusText: string, jso: Json, durationMs: int,
                             inputs: seq<PollInput>)
    ensures var o := Respond(s, checkIfPending, token, data, requestUrl, payload, status, statusText, Parsed(jso), durationMs);
            var q := if o.escalated then Run(Poll(true, o.s), token, checkIfPending, inputs) else Poll(false, o.s);
            && Deliveries(q.s.trace) == Deliveries(s.trace) + (if q.again then 0 else 1)
            && q.s.counter == s.counter + (if q.again then 1 else 0)
  {
    var o := Respond(s, checkIfPending, token, data, requestUrl, payload, status, statusText, Parsed(jso), durationMs);
    if o.escalated {
      RunDeliversAtMostOnce(Poll(true, o.s), token, checkIfPending, inputs);
    } else {
      var ev :| IsDelivery(ev) && o.s.trace == s.trace + [ev];
      DeliveriesAppend(s.trace, [ev]);
      assert Deliveries([ev]) == 1 by {
        assert [ev][..0] == [];
      }
    }
  }

  /**
   * The error path removes the entry keyed by the request URL, not by the
   * token, so the token's entry survives a reported HTTP error.
   */
  lemma HttpErrorKeepsTokenEntry(s: Shared, checkIfPending: bool, token: string, data: string, requestUrl: string,
                                 payload: string, status: nat, statusText: string, jso: Json, durationMs: int)
    requires status != 200 && requestUrl != token
    requires !(status == 500 && Escalates(checkIfPending, s.running, token, durationMs))
    ensures var o := Respond(s, checkIfPending, token, data, requestUrl, payload, status, statusText, Parsed(jso), durationMs);
            (token in o.s.running <==> token in s.running) && Deliveries(o.s.trace) == Deliveries(s.trace) + 1
  {
    var o := Respond(s, checkIfPending, token, data, requestUrl, payload, status, statusText, Parsed(jso), durationMs);
    var ev := HandleErrors(HttpErrorEnvelope(status, statusText, data, requestUrl, token in s.running), requestUrl, payload);
    DeliveriesAppend(s.trace, [ev]);
    assert Deliveries([ev]) == 1 by {
      assert [ev][..0] == [];
    }
  }

  /**
   * A call registered more than five seconds ago gets a 500; the first tick
   * queries, the reply says the operation ended with `result`. The call is
   * finished with `result` exactly once, its entry is gone and the counter is
   * back where it was.
   */
  lemma LongRunningCallScenario(s: Shared, token: string, data: string, requestUrl: string, payload: string,
                                statusText: string, durationMs: int, endTime: int, result: Json)
    requires token in s.running && durationMs >= 5000 && endTime > 0
    requires !IsErrorEnvelope(result)
    ensures var o := Respond(s, true, token, data, requestUrl, payload, 500, statusText, Parsed(JNull), durationMs);
            var inputs := [Tick, Reply(Found(PendingRecord(token, endTime, result)), requestUrl, payload)];
            var q := Run(Poll(true, o.s), token, true, inputs);
            && o.escalated && o.s.counter == s.counter + 1
            && !q.again && q.s.counter == s.counter && token !in q.s.running
            && q.s.trace == s.trace + [Query(token), Finished(result)]
  {
    EscalationThreshold(durationMs);
    var o := Respond(s, true, token, data, requestUrl, payload, 500, statusText, Parsed(JNull), durationMs);
    var inputs := [Tick, Reply(Found(PendingRecord(token, endTime, result)), requestUrl, payload)];
    var p1 := PollStep(Poll(true, o.s), token, true, inputs[0]);
    var p2 := PollStep(p1, token, true, inputs[1]);
    assert inputs[1..][1..] == [];
    assert Run(Poll(true, o.s), token, true, inputs) == Run(p1, token, true, inputs[1..]) == Run(p2, token, true, []);
  }
}
