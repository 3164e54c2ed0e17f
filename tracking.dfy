/**
 * The HTTP controller: `trackEvent` decides the response status from the
 * validation result and the producer's send, and `getHealth` always answers.
 */
module Tracking {
  import opened Wrappers
  import opened Json
  import opened Validation
  import opened Producer

  /** The JSON body of a response. */
  datatype ResponseBody =
    | Errors(errors: seq<Field>)
    | Message(text: string)
    | Health(status: string, timestamp: int)

  /** A response: its status code, the body's `success` flag, and the rest of the body. */
  datatype Response = Response(status: int, success: bool, body: ResponseBody)

  /**
   * The client address: the `x-forwarded-for` header unless it is missing or
   * empty (JavaScript's `||`), else the socket's remote address, which may be
   * missing too.
   */
  function ClientIp(forwardedFor: Option<string>, remoteAddress: Option<string>): (r: Option<string>)
    ensures forwardedFor.Some? && forwardedFor.value != "" ==> r == forwardedFor
    ensures forwardedFor.None? || forwardedFor.value == "" ==> r == remoteAddress
  {
    if forwardedFor.Some? && forwardedFor.value != "" then forwardedFor else remoteAddress
  }

  /** `{...body, ip}`: the body with its `ip` key replaced (removed when the address is undefined). */
  function WithIp(body: Object, ip: Option<string>): (r: Object)
    ensures "ip" in r <==> ip.Some?
    ensures ip.Some? ==> r["ip"] == JStr(ip.value)
    ensures forall k :: k != "ip" ==> (k in r <==> k in body)
    ensures forall k :: k != "ip" && k in body ==> r[k] == body[k]
  {
    if ip.Some? then body["ip" := JStr(ip.value)] else body - {"ip"}
  }

  /** The request body as the validator receives it. */
  function ValidatorInput(body: Object, forwardedFor: Option<string>, remoteAddress: Option<string>): (r: Object)
    ensures forwardedFor.Some? && forwardedFor.value != "" ==> "ip" in r && r["ip"] == JStr(forwardedFor.value)
    ensures forwardedFor.None? || forwardedFor.value == "" ==>
      ("ip" in r <==> remoteAddress.Some?) && (remoteAddress.Some? ==> r["ip"] == JStr(remoteAddress.value))
    ensures forall k :: k != "ip" ==> (k in r <==> k in body) && (k in body ==> r[k] == body[k])
  {
    WithIp(body, ClientIp(forwardedFor, remoteAddress))
  }

  /**
   * `trackEvent` on a producer in state `s`: the new producer state and the
   * response. An invalid body is answered 400 without touching the producer;
   * a valid one is sent, and the response is 200 when the send resolved and
   * 500 when it threw.
   */
  function TrackOutcome(s: ProducerState, body: Object, forwardedFor: Option<string>,
                        remoteAddress: Option<string>, now: int, broker: Result<RecordMetadata, string>)
    : (r: (ProducerState, Response))
    ensures var v := ValidateTrackingEvent(ValidatorInput(body, forwardedFor, remoteAddress));
      && (v.Failure? ==> r == (s, Response(400, false, Errors(v.errors))))
      && (v.Success? && s.isConnected && broker.Ok? ==>
            r.1.status == 200 && r.1.success && r.0.published == s.published + [MessageFor(v.data, now)])
      && (v.Success? && !(s.isConnected && broker.Ok?) ==>
            r == (s, Response(500, false, Message("Failed to track event"))))
    ensures r.1.status in {200, 400, 500} && (r.1.success <==> r.1.status == 200)
    ensures r.0.isConnected == s.isConnected
  {
    match ValidateTrackingEvent(ValidatorInput(body, forwardedFor, remoteAddress))
    case Failure(errors) => (s, Response(400, false, Errors(errors)))
    case Success(data) =>
      var (s', sent) := SendStep(s, data, now, broker);
      if sent.Ok? then (s', Response(200, true, Message("Event tracked successfully")))
      else (s', Response(500, false, Message("Failed to track event")))
  }

  /**
   * The client address merged into the body never reaches the topic: the
   * validator strips every key it does not declare, `ip` among them.
   */
  lemma {:induction false} ClientIpNeverPublished(s: ProducerState, body: Object, forwardedFor: Option<string>,
                                                   remoteAddress: Option<string>, now: int,
                                                   broker: Result<RecordMetadata, string>)
    ensures var r := TrackOutcome(s, body, forwardedFor, remoteAddress, now, broker);
      forall m :: m in r.0.published && m !in s.published ==>
        Parse(m.value).Some? && Parse(m.value).value.JObj? && "ip" !in Parse(m.value).value.fields
  {
    var r := TrackOutcome(s, body, forwardedFor, remoteAddress, now, broker);
    var v := ValidateTrackingEvent(ValidatorInput(body, forwardedFor, remoteAddress));
    if v.Success? && s.isConnected && broker.Ok? {
      SentRecordHasNoIp(s.published, r.0.published, v.data, now);
    } else {
      assert r.0 == s;
    }
  }

  /** Appending the record for a validated event publishes no `ip` key. */
  lemma SentRecordHasNoIp(before: seq<ProducerRecord>, after: seq<ProducerRecord>, event: TrackEvent, now: int)
    requires after == before + [MessageFor(event, now)]
    ensures forall m :: m in after && m !in before ==>
      Parse(m.value).Some? && Parse(m.value).value.JObj? && "ip" !in Parse(m.value).value.fields
  {
    if "ip" in ToJson(event) {
      ToJsonKeys(event, "ip");
    }
  }

  /** The producer used by the controller. */
  method TrackEvent(producer: KafkaProducer, body: Object, forwardedFor: Option<string>,
                    remoteAddress: Option<string>, now: int, broker: Result<RecordMetadata, string>)
    returns (resp: Response)
    modifies producer
    ensures (producer.State(), resp) == TrackOutcome(old(producer.State()), body, forwardedFor, remoteAddress, now, broker)
  {
    var ip := ClientIp(forwardedFor, remoteAddress);
    var validation := ValidateTrackingEvent(WithIp(body, ip));
    if validation.Failure? {
      return Response(400, false, Errors(validation.errors));
    }
    var sent := producer.SendEvent(validation.data, now, broker);
    if sent.Ok? {
      resp := Response(200, true, Message("Event tracked successfully"));
    } else {
      resp := Response(500, false, Message("Failed to track event"));
    }
  }

  /** `getHealth`: always 200, healthy, stamped with the current time. */
  function GetHealth(now: int): (r: Response)
    ensures r.status == 200 && r.success && r.body.Health? && r.body.status == "healthy"
    ensures r.body.timestamp == now
  {
    Response(200, true, Health("healthy", now))
  }
}
