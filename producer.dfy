/**
 * The Kafka producer: a connection flag that gates publishing, and the
 * message it builds for each tracked event.
 */
module Producer {
  import opened Wrappers
  import opened Json
  import opened Config
  import opened Validation

  /** `acks: -1`: wait for every in-sync replica. */
  const ACKS_ALL: int := -1

  /** A message handed to the broker, with the settings of the send it belongs to. */
  datatype ProducerRecord = ProducerRecord(topic: string, key: string, value: Payload, timestamp: int, acks: int)

  /** Where the broker stored an acknowledged message. */
  datatype RecordMetadata = RecordMetadata(partition: nat, offset: nat)

  /** Why `sendEvent` threw. */
  datatype SendError = NotConnected | BrokerError(message: string)

  /** The public state: the connection flag and the messages the broker acknowledged. */
  datatype ProducerState = ProducerState(isConnected: bool, published: seq<ProducerRecord>)

  const INITIAL: ProducerState := ProducerState(false, [])

  /**
   * The message built for an event at time `now`: keyed by the session (so a
   * session's events share a partition), valued by the event's serialisation.
   */
  function MessageFor(event: TrackEvent, now: int): (m: ProducerRecord)
    ensures m.key == event.sessionId && m.topic == TOPIC && m.acks == ACKS_ALL
    ensures Parse(m.value) == Some(JObj(ToJson(event)))
  {
    ProducerRecord(TOPIC, event.sessionId, Stringify(JObj(ToJson(event))), now, ACKS_ALL)
  }

  /** `connect`: the flag becomes true only when the client connects; a failure is rethrown. */
  function ConnectStep(s: ProducerState, connectError: Option<string>): (r: (ProducerState, Result<(), string>))
    ensures r.0.isConnected == (connectError.None? || s.isConnected)
    ensures r.0.published == s.published
    ensures r.1.Err? <==> connectError.Some?
  {
    match connectError
    case None => (s.(isConnected := true), Ok(()))
    case Some(e) => (s, Err(e))
  }

  /**
   * `sendEvent`: refused without any send attempt while disconnected; otherwise
   * the message is sent and a broker failure is rethrown unchanged.
   */
  function SendStep(s: ProducerState, event: TrackEvent, now: int, broker: Result<RecordMetadata, string>)
    : (r: (ProducerState, Result<RecordMetadata, SendError>))
    ensures !s.isConnected ==> r.0 == s && r.1 == Err(NotConnected)
    ensures s.isConnected && broker.Err? ==> r.0 == s && r.1 == Err(BrokerError(broker.error))
    ensures r.1.Ok? <==> s.isConnected && broker.Ok?
    ensures r.1.Ok? ==> r.1.value == broker.value && r.0.published == s.published + [MessageFor(event, now)]
    ensures r.0.isConnected == s.isConnected
  {
    if !s.isConnected then (s, Err(NotConnected))
    else match broker
      case Ok(meta) => (s.(published := s.published + [MessageFor(event, now)]), Ok(meta))
      case Err(e) => (s, Err(BrokerError(e)))
  }

  /** `disconnect`: a no-op when not connected; otherwise the flag drops once the client has closed. */
  function DisconnectStep(s: ProducerState, disconnectError: Option<string>): (r: (ProducerState, Result<(), string>))
    ensures !s.isConnected ==> r == (s, Ok(()))
    ensures s.isConnected && disconnectError.None? ==> !r.0.isConnected && r.1.Ok?
    ensures r.0.published == s.published
  {
    if !s.isConnected then (s, Ok(()))
    else match disconnectError
      case None => (s.(isConnected := false), Ok(()))
      case Some(e) => (s, Err(e))
  }

  /** A call on the producer, with the outcome of the client call it makes. */
  datatype Op =
    | Connect(connectError: Option<string>)
    | Send(event: TrackEvent, now: int, broker: Result<RecordMetadata, string>)
    | Disconnect(disconnectError: Option<string>)

  function Apply(s: ProducerState, op: Op): ProducerState
  {
    match op
    case Connect(e) => ConnectStep(s, e).0
    case Send(ev, now, b) => SendStep(s, ev, now, b).0
    case Disconnect(e) => DisconnectStep(s, e).0
  }

  function Run(s: ProducerState, ops: seq<Op>): ProducerState
    decreases |ops|
  {
    if ops == [] then s else Run(Apply(s, ops[0]), ops[1..])
  }

  predicate ConnectSucceeds(op: Op) { op == Connect(None) }
  predicate DisconnectSucceeds(op: Op) { op == Disconnect(None) }

  /**
   * From a fresh producer, the flag is set after a run of calls exactly when
   * some connect succeeded and no disconnect succeeded after it.
   */
  lemma {:induction false} ConnectedIffLastConnectSucceeded(ops: seq<Op>)
    ensures Run(INITIAL, ops).isConnected <==>
      exists i :: 0 <= i < |ops| && ConnectSucceeds(ops[i])
        && forall j :: i < j < |ops| ==> !DisconnectSucceeds(ops[j])
  {
    RunFlag(INITIAL, ops);
  }

  lemma {:induction false} RunFlag(s: ProducerState, ops: seq<Op>)
    ensures Run(s, ops).isConnected <==>
      (exists i :: 0 <= i < |ops| && ConnectSucceeds(ops[i])
        && forall j :: i < j < |ops| ==> !DisconnectSucceeds(ops[j]))
      || (s.isConnected && forall j :: 0 <= j < |ops| ==> !DisconnectSucceeds(ops[j]))
    decreases |ops|
  {
    if ops != [] {
      var s1 := Apply(s, ops[0]);
      var rest := ops[1..];
      RunFlag(s1, rest);
      assert forall j :: 0 < j < |ops| ==> ops[j] == rest[j - 1];
      if Run(s, ops).isConnected {
        if exists i :: 0 <= i < |rest| && ConnectSucceeds(rest[i])
             && forall j :: i < j < |rest| ==> !DisconnectSucceeds(rest[j]) {
          var i :| 0 <= i < |rest| && ConnectSucceeds(rest[i])
             && forall j :: i < j < |rest| ==> !DisconnectSucceeds(rest[j]);
          assert ops[i + 1] == rest[i];
        } else if ConnectSucceeds(ops[0]) {
          assert forall j :: 0 < j < |ops| ==> !DisconnectSucceeds(ops[j]);
        }
      }
    }
  }

  /** A fresh producer, before `connect` has run, refuses every send. */
  lemma {:induction false} NothingPublishedBeforeConnect(ops: seq<Op>)
    requires forall i :: 0 <= i < |ops| ==> !ops[i].Connect?
    ensures Run(INITIAL, ops) == INITIAL
    decreases |ops|
  {
    if ops != [] {
      assert Apply(INITIAL, ops[0]) == INITIAL;
      NothingPublishedBeforeConnect(ops[1..]);
    }
  }

  /** The producer client with its connection flag; `published` stands for the topic's acknowledged content. */
  class KafkaProducer {
    var isConnected: bool
    var published: seq<ProducerRecord>

    function State(): ProducerState
      reads this
    {
      ProducerState(isConnected, published)
    }

    constructor ()
      ensures State() == INITIAL
    {
      isConnected := false;
      published := [];
    }

    method Connect(connectError: Option<string>) returns (r: Result<(), string>)
      modifies this
      ensures (State(), r) == ConnectStep(old(State()), connectError)
    {
      if connectError.Some? {
        return Err(connectError.value);
      }
      isConnected := true;
      r := Ok(());
    }

    method SendEvent(event: TrackEvent, now: int, broker: Result<RecordMetadata, string>)
      returns (r: Result<RecordMetadata, SendError>)
      modifies this
      ensures (State(), r) == SendStep(old(State()), event, now, broker)
    {
      if !isConnected {
        return Err(NotConnected);
      }
      var message := MessageFor(event, now);
      match broker {
        case Ok(meta) =>
          published := published + [message];
          r := Ok(meta);
        case Err(e) =>
          r := Err(BrokerError(e));
      }
    }

    method Disconnect(disconnectError: Option<string>) returns (r: Result<(), string>)
      modifies this
      ensures (State(), r) == DisconnectStep(old(State()), disconnectError)
    {
      if isConnected {
        if disconnectError.Some? {
          return Err(disconnectError.value);
        }
        isConnected := false;
      }
      r := Ok(());
    }
  }
}
