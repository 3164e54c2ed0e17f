/**
 * The pipeline end to end: a record the producer publishes for validated data
 * decodes, at the consumer, back to that data and is saved as an event with
 * the same fields and no client address. `Consumer.SuccessStores` takes it
 * from there: stored, and its offset committed.
 */
module EndToEnd {
  import opened Wrappers
  import opened Json
  import opened Config
  import opened EventModel
  import opened Validation
  import opened Producer
  import opened Consumer

  /** The record `r` as the consumer receives it, at `offset` of `partition`. */
  function Consumed(r: ProducerRecord, partition: nat, offset: nat): (m: KafkaMessage)
    ensures m.topic == r.topic && m.key == Some(r.key) && m.value == Some(r.value)
  {
    KafkaMessage(r.topic, partition, offset, Some(r.key), Some(r.value))
  }

  /** The document stored for published data `t` inserted at `now`. */
  function StoredEvent(t: TrackEvent, now: int): Event
  {
    Event(t.event, t.page, t.sessionId, t.userId, t.referrer, None, Some(t.userAgent),
          t.timezone, t.timestamp as real, Some(now as real))
  }

  /** The JSON form of validated data has no `ip` and no `createdAt` key. */
  lemma NoServerKeys(t: TrackEvent)
    ensures "ip" !in ToJson(t) && "createdAt" !in ToJson(t)
  {
    if "ip" in ToJson(t) {
      ToJsonKeys(t, "ip");
      var f :| FieldKey(f) == "ip";
      match f
      case EventField =>
      case PageField =>
      case SessionIdField =>
      case UserIdField =>
      case ReferrerField =>
      case UserAgentField =>
      case TimezoneField =>
      case TimestampField =>
    }
    if "createdAt" in ToJson(t) {
      ToJsonKeys(t, "createdAt");
      var f :| FieldKey(f) == "createdAt";
      match f
      case EventField =>
      case PageField =>
      case SessionIdField =>
      case UserIdField =>
      case ReferrerField =>
      case UserAgentField =>
      case TimezoneField =>
      case TimestampField =>
    }
  }

  /** What the JSON form of validated data holds, key by key. */
  lemma JsonFormFields(t: TrackEvent)
    ensures var o := ToJson(t);
      && "event" in o && o["event"] == JStr(Name(t.event))
      && "page" in o && o["page"] == JStr(t.page)
      && "sessionId" in o && o["sessionId"] == JStr(t.sessionId)
      && "userAgent" in o && o["userAgent"] == JStr(t.userAgent)
      && "timestamp" in o && o["timestamp"] == JNum(t.timestamp as real)
      && StringAt(o, "userId") == t.userId && OptionalText(o, "userId")
      && StringAt(o, "referrer") == t.referrer && OptionalText(o, "referrer")
      && StringAt(o, "timezone") == t.timezone && OptionalText(o, "timezone")
      && "ip" !in o && "createdAt" !in o
  {
    NoServerKeys(t);
  }

  /**
   * The schema accepts the JSON form of validated data, and the stored
   * document carries the same fields, no client address, and the insertion
   * time as `createdAt`.
   */
  lemma PublishedDocument(t: TrackEvent, now: int)
    requires t.page != "" && t.sessionId != ""
    ensures var r := ToDocument(JObj(ToJson(t)), now);
      && r.Ok?
      && r.value.event == t.event && r.value.page == t.page && r.value.sessionId == t.sessionId
      && r.value.userId == t.userId && r.value.referrer == t.referrer && r.value.ip.None?
      && r.value.userAgent == Some(t.userAgent) && r.value.timezone == t.timezone
      && r.value.timestamp == t.timestamp as real && r.value.createdAt == Some(now as real)
      && r == Ok(StoredEvent(t, now))
  {
    var o := ToJson(t);
    JsonFormFields(t);
    assert FromName(Name(t.event)) == Some(t.event);
    forall p ensures PathAccepts(o, p) {
      match p
      case UserAgentPath =>
      case IpPath =>
      case _ =>
    }
    var r := ToDocument(JObj(o), now);
    assert Name(r.value.event) == Name(t.event);
  }

  /** The consumer decodes a published record back to the data and saves it as `StoredEvent`. */
  lemma PublishedRecordSaves(t: TrackEvent, sentAt: int, partition: nat, offset: nat, env: Env)
    requires t.page != "" && t.sessionId != "" && env.writeError.None?
    ensures var m := Consumed(MessageFor(t, sentAt), partition, offset);
      && Decode(m) == Ok(JObj(ToJson(t)))
      && DecodeAndSave(m, env) == Ok(StoredEvent(t, env.now))
  {
    PublishedDocument(t, env.now);
  }
}
