/**
 * The Kafka consumer: `eachMessage` decodes a message, saves the event,
 * updates and recomputes the metrics, broadcasts them and commits the offset
 * after the message, in that order. Whatever throws on the way sends the
 * message, unchanged, to the dead-letter topic; a failed dead-letter publish
 * is swallowed. Offsets are committed by hand, so a dead-lettered message's
 * offset is not committed.
 */
module Consumer {
  import opened Wrappers
  import opened Json
  import opened Config
  import opened EventModel
  import opened MetricsService
  import opened WebSocket

  /** A consumed message with the topic and partition of its batch; the offset as a number. */
  datatype KafkaMessage = KafkaMessage(
    topic: string,
    partition: nat,
    offset: nat,
    key: Option<string>,
    value: Option<Payload>)

  /** Why the `try` block of `eachMessage` threw. */
  datatype Fault =
    | NullValue                        // `message.value` is null, so `.toString()` throws
    | NotJson                          // `JSON.parse` throws a SyntaxError
    | NullEvent                        // the payload is `null`, so reading `event.event` throws
    | SaveFailed(error: SaveError)     // `saveEvent` rethrew
    | BroadcastFailed(message: string) // `broadcastMetrics` threw
    | CommitFailed(message: string)    // `commitOffsets` rejected

  /** The text of the runtime's parse error; it depends on the engine and the input. */
  const SYNTAX_ERROR_MESSAGE: string := "Unexpected token in JSON"

  /** The caught error's `message`. */
  function FaultMessage(f: Fault): string
  {
    match f
    case NullValue => "Cannot read properties of null (reading 'toString')"
    case NotJson => SYNTAX_ERROR_MESSAGE
    case NullEvent => "Cannot read properties of null (reading 'event')"
    case SaveFailed(e) => ErrorMessage(e)
    case BroadcastFailed(m) => m
    case CommitFailed(m) => m
  }

  /** An entry of `commitOffsets`: the offset to resume from. */
  datatype OffsetCommit = OffsetCommit(topic: string, partition: nat, offset: nat)

  /** A message published to the dead-letter topic, with its three headers. */
  datatype DlqRecord = DlqRecord(
    topic: string,
    key: Option<string>,
    value: Option<Payload>,
    originalTopic: string,
    errorMessage: string,
    errorTimestamp: int)

  /** The observable effects of handling a message, in the order they happen. */
  datatype Effect =
    | Saved(event: Event)
    | Processed(entry: RecentEntry)
    | MetricsRead(metrics: Snapshot)
    | Broadcasted(metrics: Snapshot)
    | Committed(commit: OffsetCommit)
    | DeadLettered(record: DlqRecord)
    | DeadLetterDropped(message: string)

  /**
   * The outcome of each foreign call while a message is handled: the clock,
   * the database write, the store query that rejects (if any), the socket
   * emit, the offset commit and the dead-letter publish.
   */
  datatype Env = Env(
    now: int,
    writeError: Option<string>,
    failing: Option<Query>,
    broadcastError: Option<string>,
    commitError: Option<string>,
    dlqError: Option<string>)

  /** Everything `eachMessage` can change: the store, the metrics, the sockets, the commits and the dead letters. */
  datatype Pipeline = Pipeline(
    store: seq<Event>,
    metrics: Snapshot,
    hub: HubState,
    commits: seq<OffsetCommit>,
    dlq: seq<DlqRecord>)

  /** `JSON.parse(message.value.toString())`, followed by the read of `event.event` for the log line. */
  function Decode(m: KafkaMessage): (r: Result<Json, Fault>)
    ensures r.Ok? <==> m.value.Some? && m.value.value.Serialized? && m.value.value.doc != JNull
    ensures r.Ok? ==> Parse(m.value.value) == Some(r.value)
    ensures m.value.None? ==> r == Err(NullValue)
    ensures m.value.Some? && m.value.value.Unparseable? ==> r == Err(NotJson)
  {
    match m.value
    case None => Err(NullValue)
    case Some(p) =>
      match Parse(p)
      case None => Err(NotJson)
      case Some(v) => if v == JNull then Err(NullEvent) else Ok(v)
  }

  /** The offset committed after `m`: the next one to read. */
  function NextOffset(m: KafkaMessage): (c: OffsetCommit)
    ensures c.topic == m.topic && c.partition == m.partition && c.offset == m.offset + 1
  {
    OffsetCommit(m.topic, m.partition, m.offset + 1)
  }

  /** The dead-letter message for `m`: its key and value untouched, and the three headers. */
  function DlqRecordFor(m: KafkaMessage, f: Fault, now: int): (r: DlqRecord)
    ensures r.topic == DLQ_TOPIC && r.key == m.key && r.value == m.value
    ensures r.originalTopic == TOPIC && r.errorMessage == FaultMessage(f) && r.errorTimestamp == now
  {
    DlqRecord(DLQ_TOPIC, m.key, m.value, TOPIC, FaultMessage(f), now)
  }

  /** `saveEvent` on the decoded message: the stored document, or the fault that stops the handler. */
  function DecodeAndSave(m: KafkaMessage, env: Env): (r: Result<Event, Fault>)
    ensures Decode(m).Err? ==> r == Err(Decode(m).error)
    ensures Decode(m).Ok? && SaveOutcome(Decode(m).value, env.now, env.writeError).Err? ==>
      r == Err(SaveFailed(SaveOutcome(Decode(m).value, env.now, env.writeError).error))
    ensures Decode(m).Ok? && SaveOutcome(Decode(m).value, env.now, env.writeError).Ok? ==>
      r == Ok(SaveOutcome(Decode(m).value, env.now, env.writeError).value)
  {
    match Decode(m)
    case Err(f) => Err(f)
    case Ok(v) =>
      match SaveOutcome(v, env.now, env.writeError)
      case Err(e) => Err(SaveFailed(e))
      case Ok(e) => Ok(e)
  }

  /** The metrics object after `processEvent(e)` and then `getMetrics` over `store`. */
  function MetricsAfter(prev: Snapshot, store: seq<Event>, e: Event, env: Env): (r: Snapshot)
    ensures r.recentEvents == PushRecent(prev.recentEvents, EntryOf(e))
  {
    Recompute(prev.(recentEvents := PushRecent(prev.recentEvents, EntryOf(e))), store, env.now, env.failing)
  }

  /**
   * `broadcastMetrics(metrics)` and then the commit of the next offset: the
   * pipeline as far as they got, their effects, and the fault, if any.
   */
  function Deliver(p: Pipeline, m: KafkaMessage, metrics: Snapshot, env: Env): (r: (Pipeline, seq<Effect>, Option<Fault>))
    ensures r.2.None? <==> env.broadcastError.None? && env.commitError.None?
    ensures r.0.store == p.store && r.0.metrics == p.metrics && r.0.dlq == p.dlq
    ensures r.0.commits == if r.2.None? then p.commits + [NextOffset(m)] else p.commits
    ensures r.0.hub == if env.broadcastError.None? then BroadcastStep(p.hub, metrics) else p.hub
    ensures r.1 == (if env.broadcastError.None? then [Broadcasted(metrics)] else [])
                   + (if r.2.None? then [Committed(NextOffset(m))] else [])
    ensures env.broadcastError.Some? ==> r.2 == Some(BroadcastFailed(env.broadcastError.value))
    ensures env.broadcastError.None? && env.commitError.Some? ==> r.2 == Some(CommitFailed(env.commitError.value))
  {
    if env.broadcastError.Some? then (p, [], Some(BroadcastFailed(env.broadcastError.value)))
    else
      var sent := p.(hub := BroadcastStep(p.hub, metrics));
      if env.commitError.Some? then (sent, [Broadcasted(metrics)], Some(CommitFailed(env.commitError.value)))
      else (sent.(commits := p.commits + [NextOffset(m)]), [Broadcasted(metrics), Committed(NextOffset(m))], None)
  }

  /** The steps after `e` was saved, `p.store` holding it already. */
  function AfterSaveStep(p: Pipeline, m: KafkaMessage, e: Event, env: Env): (r: (Pipeline, seq<Effect>, Option<Fault>))
    ensures r.2.None? <==> env.broadcastError.None? && env.commitError.None?
    ensures r.0.store == p.store && r.0.dlq == p.dlq
    ensures r.0.commits == if r.2.None? then p.commits + [NextOffset(m)] else p.commits
    ensures |r.1| >= 3 && r.1[0] == Saved(e) && r.1[1] == Processed(EntryOf(e))
    ensures forall i :: 0 <= i < |r.1| ==> !r.1[i].DeadLettered? && !r.1[i].DeadLetterDropped?
    ensures r.2.Some? ==> forall i :: 0 <= i < |r.1| ==> !r.1[i].Committed?
    ensures r.2.None? ==> var metrics := MetricsAfter(p.metrics, p.store, e, env);
      && r.1 == [Saved(e), Processed(EntryOf(e)), MetricsRead(metrics), Broadcasted(metrics), Committed(NextOffset(m))]
      && r.0 == Pipeline(p.store, metrics, BroadcastStep(p.hub, metrics), p.commits + [NextOffset(m)], p.dlq)
  {
    Finish(p, m, e, MetricsAfter(p.metrics, p.store, e, env), env)
  }

  /** `processEvent` and `getMetrics` left `metrics`: it is read, then delivered. */
  function Finish(p: Pipeline, m: KafkaMessage, e: Event, metrics: Snapshot, env: Env): (r: (Pipeline, seq<Effect>, Option<Fault>))
    ensures r.2.None? <==> env.broadcastError.None? && env.commitError.None?
    ensures r.0.store == p.store && r.0.dlq == p.dlq && r.0.metrics == metrics
    ensures r.0.commits == if r.2.None? then p.commits + [NextOffset(m)] else p.commits
    ensures |r.1| >= 3 && r.1[0] == Saved(e) && r.1[1] == Processed(EntryOf(e)) && r.1[2] == MetricsRead(metrics)
    ensures forall i :: 0 <= i < |r.1| ==> !r.1[i].DeadLettered? && !r.1[i].DeadLetterDropped?
    ensures r.2.Some? ==> forall i :: 0 <= i < |r.1| ==> !r.1[i].Committed?
    ensures r.2.None? ==>
      && r.1 == [Saved(e), Processed(EntryOf(e)), MetricsRead(metrics), Broadcasted(metrics), Committed(NextOffset(m))]
      && r.0 == Pipeline(p.store, metrics, BroadcastStep(p.hub, metrics), p.commits + [NextOffset(m)], p.dlq)
  {
    var (q, more, fault) := Deliver(p.(metrics := metrics), m, metrics, env);
    (q, [Saved(e), Processed(EntryOf(e)), MetricsRead(metrics)] + more, fault)
  }

  /** Every call succeeds, so the `try` block runs to the end. */
  predicate Succeeds(m: KafkaMessage, env: Env)
  {
    DecodeAndSave(m, env).Ok? && env.broadcastError.None? && env.commitError.None?
  }

  /**
   * The `try` block: the pipeline after the steps that ran, their effects,
   * and the fault that stopped it, if any. Steps that ran before a fault are
   * not undone.
   */
  function TryBlock(p: Pipeline, m: KafkaMessage, env: Env): (r: (Pipeline, seq<Effect>, Option<Fault>))
    ensures r.2.None? <==> Succeeds(m, env)
    ensures r.0.dlq == p.dlq
    ensures r.0.commits == if r.2.None? then p.commits + [NextOffset(m)] else p.commits
    ensures forall i :: 0 <= i < |r.1| ==> !r.1[i].DeadLettered? && !r.1[i].DeadLetterDropped?
    ensures r.2.Some? ==> forall i :: 0 <= i < |r.1| ==> !r.1[i].Committed?
  {
    match DecodeAndSave(m, env)
    case Err(f) => (p, [], Some(f))
    case Ok(e) => AfterSaveStep(p.(store := p.store + [e]), m, e, env)
  }

  /** `sendToDLQ`: publishes the dead-letter message, or logs and swallows the publish error. */
  function SendToDlq(p: Pipeline, m: KafkaMessage, f: Fault, env: Env): (r: (Pipeline, seq<Effect>))
    ensures env.dlqError.None? ==> r == (p.(dlq := p.dlq + [DlqRecordFor(m, f, env.now)]), [DeadLettered(DlqRecordFor(m, f, env.now))])
    ensures env.dlqError.Some? ==> r == (p, [DeadLetterDropped(env.dlqError.value)])
  {
    if env.dlqError.Some? then (p, [DeadLetterDropped(env.dlqError.value)])
    else
      var record := DlqRecordFor(m, f, env.now);
      (p.(dlq := p.dlq + [record]), [DeadLettered(record)])
  }

  /** `eachMessage`: the `try` block, then `sendToDLQ` when it threw. The handler itself never throws. */
  function HandleMessage(p: Pipeline, m: KafkaMessage, env: Env): (Pipeline, seq<Effect>)
  {
    Conclude(TryBlock(p, m, env), m, env)
  }

  /** The `catch` clause of `eachMessage`, run on what the `try` block left. */
  function Conclude(t: (Pipeline, seq<Effect>, Option<Fault>), m: KafkaMessage, env: Env): (Pipeline, seq<Effect>)
  {
    var (q, effects, fault) := t;
    if fault.None? then (q, effects)
    else
      var (q', more) := SendToDlq(q, m, fault.value, env);
      (q', effects + more)
  }

  /**
   * After a fault, the `catch` clause appends exactly one dead-letter attempt
   * to the effects of a `try` block that committed and dead-lettered nothing.
   */
  lemma ConcludeFault(p: Pipeline, t: (Pipeline, seq<Effect>, Option<Fault>), m: KafkaMessage, env: Env)
    requires t.2.Some? && t.0.commits == p.commits && t.0.dlq == p.dlq
    requires forall i :: 0 <= i < |t.1| ==> !t.1[i].Committed? && !t.1[i].DeadLettered? && !t.1[i].DeadLetterDropped?
    ensures var (q, effects) := Conclude(t, m, env);
      && q.commits == p.commits
      && (forall i :: 0 <= i < |effects| ==> !effects[i].Committed?)
      && |effects| > 0
      && (env.dlqError.None? ==>
            effects[|effects| - 1] == DeadLettered(DlqRecordFor(m, t.2.value, env.now))
            && q.dlq == p.dlq + [DlqRecordFor(m, t.2.value, env.now)])
      && (env.dlqError.Some? ==> effects[|effects| - 1] == DeadLetterDropped(env.dlqError.value) && q.dlq == p.dlq)
      && (forall i :: 0 <= i < |effects| - 1 ==> !effects[i].DeadLettered? && !effects[i].DeadLetterDropped?)
  {
    var (q, effects) := Conclude(t, m, env);
    forall i | 0 <= i < |effects|
      ensures !effects[i].Committed?
      ensures i < |effects| - 1 ==> !effects[i].DeadLettered? && !effects[i].DeadLetterDropped?
    {
      if i < |t.1| {
        assert effects[i] == t.1[i];
      }
    }
  }

  /**
   * On success the effects are, in order: the save, `processEvent`,
   * `getMetrics`, the broadcast of exactly the metrics read, and the commit
   * of the next offset; nothing is dead-lettered.
   */
  lemma SuccessPath(p: Pipeline, m: KafkaMessage, env: Env)
    requires Succeeds(m, env)
    ensures var e := DecodeAndSave(m, env).value;
      var (q, effects) := HandleMessage(p, m, env);
      var metrics := MetricsAfter(p.metrics, p.store + [e], e, env);
      && effects == [Saved(e), Processed(EntryOf(e)), MetricsRead(metrics), Broadcasted(metrics), Committed(NextOffset(m))]
      && q == Pipeline(p.store + [e], metrics, BroadcastStep(p.hub, metrics), p.commits + [NextOffset(m)], p.dlq)
  {
    var e := DecodeAndSave(m, env).value;
    assert TryBlock(p, m, env) == AfterSaveStep(p.(store := p.store + [e]), m, e, env);
  }

  /** On success the event is stored, the next offset committed and nothing dead-lettered. */
  lemma SuccessStores(p: Pipeline, m: KafkaMessage, env: Env, e: Event)
    requires DecodeAndSave(m, env) == Ok(e) && env.broadcastError.None? && env.commitError.None?
    ensures var q := HandleMessage(p, m, env).0;
      q.store == p.store + [e] && q.commits == p.commits + [NextOffset(m)] && q.dlq == p.dlq
  {
    assert TryBlock(p, m, env) == AfterSaveStep(p.(store := p.store + [e]), m, e, env);
  }

  /**
   * Whenever a step throws, no offset is committed and the handler ends with
   * exactly one dead-letter attempt, carrying the message and the fault.
   */
  lemma FailurePath(p: Pipeline, m: KafkaMessage, env: Env)
    requires !Succeeds(m, env)
    ensures var (q, effects) := HandleMessage(p, m, env);
      var f := TryBlock(p, m, env).2;
      && f.Some?
      && q.commits == p.commits
      && (forall i :: 0 <= i < |effects| ==> !effects[i].Committed?)
      && |effects| > 0
      && (env.dlqError.None? ==>
            effects[|effects| - 1] == DeadLettered(DlqRecordFor(m, f.value, env.now))
            && q.dlq == p.dlq + [DlqRecordFor(m, f.value, env.now)])
      && (env.dlqError.Some? ==> effects[|effects| - 1] == DeadLetterDropped(env.dlqError.value) && q.dlq == p.dlq)
      && (forall i :: 0 <= i < |effects| - 1 ==> !effects[i].DeadLettered? && !effects[i].DeadLetterDropped?)
  {
    ConcludeFault(p, TryBlock(p, m, env), m, env);
  }

  /** A message that does not decode is never saved: the store, the metrics and the sockets are untouched. */
  lemma DecodeFailureTouchesNothing(p: Pipeline, m: KafkaMessage, env: Env)
    requires Decode(m).Err?
    ensures var (q, effects) := HandleMessage(p, m, env);
      && q.store == p.store && q.metrics == p.metrics && q.hub == p.hub && q.commits == p.commits
      && |effects| == 1 && (effects[0].DeadLettered? || effects[0].DeadLetterDropped?)
      && (env.dlqError.None? ==> effects[0].record.errorMessage == FaultMessage(Decode(m).error))
  {
  }

  /** A failed save skips `processEvent`, the broadcast and the commit. */
  lemma SaveFailureSkipsTheRest(p: Pipeline, m: KafkaMessage, env: Env)
    requires Decode(m).Ok? && SaveOutcome(Decode(m).value, env.now, env.writeError).Err?
    ensures var (q, effects) := HandleMessage(p, m, env);
      && q.store == p.store && q.metrics == p.metrics && q.hub == p.hub && q.commits == p.commits
      && |effects| == 1 && (effects[0].DeadLettered? || effects[0].DeadLetterDropped?)
      && (env.dlqError.None? ==>
            effects[0].record.errorMessage == ErrorMessage(SaveOutcome(Decode(m).value, env.now, env.writeError).error))
  {
    var f := SaveFailed(SaveOutcome(Decode(m).value, env.now, env.writeError).error);
    assert TryBlock(p, m, env) == (p, [], Some(f));
  }

  /**
   * A message whose payload lacks a required value, such as `page`, is
   * dead-lettered, and its `errorMessage` header carries that path's entry,
   * for `page` the text ``page: Path `page` is required.``
   */
  lemma MissingRequiredInDlqMessage(p: Pipeline, m: KafkaMessage, env: Env, path: Path)
    requires Decode(m).Ok? && IsRequired(path) && Missing(FieldsOf(Decode(m).value), Key(path))
    requires env.dlqError.None?
    ensures var effects := HandleMessage(p, m, env).1;
      && |effects| == 1 && effects[0].DeadLettered?
      && exists k :: AppearsAt(effects[0].record.errorMessage, Key(path) + ": " + RequiredMessage(Key(path)), k)
  {
    var v := Decode(m).value;
    MissingRequiredEntry(v, env.now, env.writeError, path);
    var errors := SaveOutcome(v, env.now, env.writeError).error.errors;
    var i :| 0 <= i < |errors| && errors[i] == PathError(path, RequiredMessage(Key(path)));
    SaveFailureSkipsTheRest(p, m, env);
    EntryInMessage(errors, i);
  }

  /**
   * A broadcast or commit that throws after the save still dead-letters the
   * message, although the event stays stored and the metrics updated: the
   * message is both stored and dead-lettered.
   */
  lemma LateFailureKeepsTheSave(p: Pipeline, m: KafkaMessage, env: Env)
    requires DecodeAndSave(m, env).Ok?
    requires env.broadcastError.Some? || env.commitError.Some?
    requires env.dlqError.None?
    ensures var e := DecodeAndSave(m, env).value;
      var (q, effects) := HandleMessage(p, m, env);
      var f := if env.broadcastError.Some? then BroadcastFailed(env.broadcastError.value)
               else CommitFailed(env.commitError.value);
      && q.store == p.store + [e]
      && q.metrics == MetricsAfter(p.metrics, p.store + [e], e, env)
      && q.commits == p.commits
      && effects[0] == Saved(e)
      && q.dlq == p.dlq + [DlqRecordFor(m, f, env.now)]
  {
    var e := DecodeAndSave(m, env).value;
    var metrics := MetricsAfter(p.metrics, p.store + [e], e, env);
    var d := Deliver(p.(store := p.store + [e]).(metrics := metrics), m, metrics, env);
    assert TryBlock(p, m, env) == (d.0, [Saved(e), Processed(EntryOf(e)), MetricsRead(metrics)] + d.1, d.2);
  }

  /**
   * The stored document is read from the decoded message: its event name,
   * page, session and timestamp are the payload's own fields.
   */
  lemma SavedIsPayload(m: KafkaMessage, env: Env)
    requires DecodeAndSave(m, env).Ok?
    ensures var o := FieldsOf(Decode(m).value);
      var e := DecodeAndSave(m, env).value;
      && Name(e.event) == o["event"].s && e.page == o["page"].s
      && e.sessionId == o["sessionId"].s && e.timestamp == o["timestamp"].n
  {
  }

  /**
   * `processEvent` is handed the decoded payload rather than the stored
   * document; the entry it records is the same either way.
   */
  lemma ProcessedEntryIsPayload(p: Pipeline, m: KafkaMessage, env: Env)
    requires DecodeAndSave(m, env).Ok?
    ensures var o := FieldsOf(Decode(m).value);
      var effects := HandleMessage(p, m, env).1;
      && |effects| >= 2 && effects[1].Processed?
      && Name(effects[1].entry.event) == o["event"].s && effects[1].entry.page == o["page"].s
      && effects[1].entry.sessionId == o["sessionId"].s && effects[1].entry.timestamp == o["timestamp"].n
  {
    var e := DecodeAndSave(m, env).value;
    SavedIsPayload(m, env);
    ProcessedSecond(p, m, env, e);
  }

  /** Once the save succeeded, the second effect is `processEvent` of the stored event. */
  lemma ProcessedSecond(p: Pipeline, m: KafkaMessage, env: Env, e: Event)
    requires DecodeAndSave(m, env) == Ok(e)
    ensures var effects := HandleMessage(p, m, env).1;
      |effects| >= 2 && effects[1] == Processed(EntryOf(e))
  {
    var t := TryBlock(p, m, env);
    assert t == AfterSaveStep(p.(store := p.store + [e]), m, e, env);
    if t.2.Some? {
      var (q, more) := SendToDlq(t.0, m, t.2.value, env);
      assert HandleMessage(p, m, env).1 == t.1 + more;
    }
  }

  /** `start` after a subscribe that succeeded or threw: the flag is set only once subscribed. */
  function StartStep(isRunning: bool, subscribeError: Option<string>): (r: (bool, Result<(), string>))
    ensures r.1.Ok? <==> subscribeError.None?
    ensures r.1.Ok? ==> r.0
    ensures r.1.Err? ==> r.0 == isRunning
  {
    if subscribeError.Some? then (isRunning, Err(subscribeError.value)) else (true, Ok(()))
  }

  /**
   * `disconnect`: a no-op when not running; otherwise the flag is cleared
   * once both clients have disconnected, and stays set when one throws.
   */
  function StopStep(isRunning: bool, disconnectError: Option<string>): (r: (bool, Result<(), string>))
    ensures !isRunning ==> r == (false, Ok(()))
    ensures r.1.Ok? ==> !r.0
    ensures isRunning && disconnectError.Some? ==> r == (true, Err(disconnectError.value))
  {
    if !isRunning then (false, Ok(()))
    else if disconnectError.Some? then (true, Err(disconnectError.value))
    else (false, Ok(()))
  }

  class KafkaConsumer {
    var isRunning: bool
    var commits: seq<OffsetCommit>
    var dlq: seq<DlqRecord>
    const events: EventCollection
    const engine: MetricsEngine
    const hub: WebSocketServer

    /** The pipeline as seen from the consumer. */
    function State(): Pipeline
      reads this, events, engine.metrics, hub
    {
      Pipeline(events.events, engine.metrics.Value(), hub.State(), commits, dlq)
    }

    constructor (events: EventCollection, engine: MetricsEngine, hub: WebSocketServer)
      ensures this.events == events && this.engine == engine && this.hub == hub
      ensures !isRunning && commits == [] && dlq == []
    {
      this.events := events;
      this.engine := engine;
      this.hub := hub;
      isRunning := false;
      commits := [];
      dlq := [];
    }

    method Start(subscribeError: Option<string>) returns (r: Result<(), string>)
      modifies this
      ensures (isRunning, r) == StartStep(old(isRunning), subscribeError)
      ensures commits == old(commits) && dlq == old(dlq)
    {
      if subscribeError.Some? {
        return Err(subscribeError.value);
      }
      isRunning := true;
      r := Ok(());
    }

    method Disconnect(disconnectError: Option<string>) returns (r: Result<(), string>)
      modifies this
      ensures (isRunning, r) == StopStep(old(isRunning), disconnectError)
      ensures commits == old(commits) && dlq == old(dlq)
    {
      if isRunning {
        if disconnectError.Some? {
          return Err(disconnectError.value);
        }
        isRunning := false;
      }
      r := Ok(());
    }

    /** `eachMessage`: the new pipeline and the effects, as `HandleMessage` describes them. */
    method EachMessage(m: KafkaMessage, env: Env) returns (effects: seq<Effect>)
      modifies this, events, engine.metrics, hub
      ensures (State(), effects) == HandleMessage(old(State()), m, env)
      ensures isRunning == old(isRunning)
    {
      var done, fault := RunTryBlock(m, env);
      effects := done;
      if fault.Some? {
        var more := SendToDlqStep(m, fault.value, env);
        effects := effects + more;
      }
    }

    method RunTryBlock(m: KafkaMessage, env: Env) returns (effects: seq<Effect>, fault: Option<Fault>)
      modifies this, events, engine.metrics, hub
      ensures (State(), effects, fault) == TryBlock(old(State()), m, env)
      ensures isRunning == old(isRunning)
    {
      var saved := SaveEvent(m, env);
      if saved.Err? {
        return [], Some(saved.error);
      }
      effects, fault := AfterSave(m, saved.value, env);
    }

    /** The decode and `saveEvent`: the collection grows by the document exactly when both succeed. */
    method SaveEvent(m: KafkaMessage, env: Env) returns (r: Result<Event, Fault>)
      modifies events
      ensures r == DecodeAndSave(m, env)
      ensures events.events == if r.Ok? then old(events.events) + [r.value] else old(events.events)
    {
      var decoded := Decode(m);
      if decoded.Err? {
        return Err(decoded.error);
      }
      var saved := events.Save(decoded.value, env.now, env.writeError);
      if saved.Err? {
        return Err(SaveFailed(saved.error));
      }
      r := Ok(saved.value);
    }

    /** The steps after the save: `processEvent`, `getMetrics`, then the broadcast and the commit. */
    method AfterSave(m: KafkaMessage, e: Event, env: Env) returns (effects: seq<Effect>, fault: Option<Fault>)
      modifies this, engine.metrics, hub
      ensures (State(), effects, fault) == AfterSaveStep(old(State()), m, e, env)
      ensures isRunning == old(isRunning)
    {
      engine.ProcessEvent(e);
      var current := engine.GetMetrics(events.events, env.now, env.failing);
      var metrics := current.Value();
      var more;
      more, fault := DeliverStep(m, metrics, env);
      effects := [Saved(e), Processed(EntryOf(e)), MetricsRead(metrics)] + more;
    }

    /** `broadcastMetrics`, then `commitOffsets` for the next offset. */
    method DeliverStep(m: KafkaMessage, metrics: Snapshot, env: Env) returns (effects: seq<Effect>, fault: Option<Fault>)
      modifies this, hub
      ensures (State(), effects, fault) == Deliver(old(State()), m, metrics, env)
      ensures isRunning == old(isRunning)
    {
      if env.broadcastError.Some? {
        return [], Some(BroadcastFailed(env.broadcastError.value));
      }
      hub.BroadcastMetrics(metrics);
      if env.commitError.Some? {
        return [Broadcasted(metrics)], Some(CommitFailed(env.commitError.value));
      }
      commits := commits + [NextOffset(m)];
      effects, fault := [Broadcasted(metrics), Committed(NextOffset(m))], None;
    }

    method SendToDlqStep(m: KafkaMessage, f: Fault, env: Env) returns (effects: seq<Effect>)
      modifies this
      ensures (State(), effects) == SendToDlq(old(State()), m, f, env)
      ensures isRunning == old(isRunning) && commits == old(commits)
    {
      if env.dlqError.Some? {
        return [DeadLetterDropped(env.dlqError.value)];
      }
      var record := DlqRecordFor(m, f, env.now);
      dlq := dlq + [record];
      effects := [DeadLettered(record)];
    }
  }
}
