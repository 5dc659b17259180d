/** The record codec of io/io.go: a message received from the broker is
    projected onto the persisted `SerializableMessage` record, and a record
    is turned back into an outbound message that carries only the fields a
    producer may set. */
module Codec {
  import opened Wrappers

  newtype byte = x: int | 0 <= x < 256
  newtype uint32 = x: int | 0 <= x < 0x1_0000_0000
  newtype int64 = x: int | -0x8000_0000_0000_0000 <= x < 0x8000_0000_0000_0000

  /** The broker's 16-byte lock token. */
  type LockToken = s: seq<byte> | |s| == 16 witness seq(16, _ => 0)

  /** A value the model does not look inside: a `time.Time`, a
      `time.Duration`, or one `interface{}` application-property value. */
  datatype Opaque = Opaque(text: string)

  /** User-defined application properties; a nil Go map is `None`. */
  type Properties = Option<map<string, Opaque>>

  /** The numeric message states the broker reports. */
  const StateActive := 0
  const StateDeferred := 1
  const StateScheduled := 2

  /** A message as received from a subscription (the fields the record
      construction reads). `state` is the broker's numeric state. */
  datatype ReceivedMessage = ReceivedMessage(
    applicationProperties: Properties,
    body: seq<byte>,
    contentType: Option<string>,
    correlationID: Option<string>,
    deadLetterErrorDescription: Option<string>,
    deadLetterReason: Option<string>,
    deadLetterSource: Option<string>,
    deliveryCount: uint32,
    enqueuedSequenceNumber: Option<int64>,
    enqueuedTime: Option<Opaque>,
    expiresAt: Option<Opaque>,
    lockedUntil: Option<Opaque>,
    lockToken: LockToken,
    messageID: string,
    partitionKey: Option<string>,
    replyTo: Option<string>,
    replyToSessionID: Option<string>,
    scheduledEnqueueTime: Option<Opaque>,
    sequenceNumber: Option<int64>,
    sessionID: Option<string>,
    state: int,
    subject: Option<string>,
    timeToLive: Option<Opaque>,
    to: Option<string>)

  /** The persisted record, one per line of a `.jsonl` file. Go strings are
      byte strings, so the body is kept as its bytes; the state is kept as
      its name. */
  datatype SerializableMessage = SerializableMessage(
    applicationProperties: Properties,
    body: seq<byte>,
    contentType: Option<string>,
    correlationID: Option<string>,
    deadLetterErrorDescription: Option<string>,
    deadLetterReason: Option<string>,
    deadLetterSource: Option<string>,
    deliveryCount: uint32,
    enqueuedSequenceNumber: Option<int64>,
    enqueuedTime: Option<Opaque>,
    expiresAt: Option<Opaque>,
    lockedUntil: Option<Opaque>,
    lockToken: LockToken,
    messageID: string,
    partitionKey: Option<string>,
    replyTo: Option<string>,
    replyToSessionID: Option<string>,
    scheduledEnqueueTime: Option<Opaque>,
    sequenceNumber: Option<int64>,
    sessionID: Option<string>,
    state: string,
    subject: Option<string>,
    timeToLive: Option<Opaque>,
    to: Option<string>)

  /** An outbound message: only what a producer may set. Broker-assigned
      data (lock token, sequence numbers, delivery count, state) has no
      field here at all. */
  datatype Message = Message(
    applicationProperties: Properties,
    body: seq<byte>,
    contentType: Option<string>,
    correlationID: Option<string>,
    messageID: Option<string>,
    partitionKey: Option<string>,
    replyTo: Option<string>,
    replyToSessionID: Option<string>,
    scheduledEnqueueTime: Option<Opaque>,
    sessionID: Option<string>,
    subject: Option<string>,
    timeToLive: Option<Opaque>,
    to: Option<string>)

  /** The readable name of a numeric state; every code other than the
      three known ones is "Unknown". */
  function StateToString(state: int): (name: string)
    ensures name in {"Active", "Deferred", "Scheduled", "Unknown"}
    ensures name == "Active" <==> state == StateActive
    ensures name == "Deferred" <==> state == StateDeferred
    ensures name == "Scheduled" <==> state == StateScheduled
    ensures name == "Unknown" <==> state !in {StateActive, StateDeferred, StateScheduled}
  {
    match state
    case 0 => "Active"
    case 1 => "Deferred"
    case 2 => "Scheduled"
    case _ => "Unknown"
  }

  /** Two codes share a name only when both are unknown or they are equal. */
  lemma StateNamesDistinguishKnownStates(s: int, t: int)
    ensures StateToString(s) == StateToString(t) <==>
            s == t || (s !in {StateActive, StateDeferred, StateScheduled} &&
                       t !in {StateActive, StateDeferred, StateScheduled})
  {
  }

  /** The record a drained message is persisted as: every field copied
      into its own place for audit, the state replaced by its name. */
  function ToSerializableMessage(m: ReceivedMessage): (r: SerializableMessage)
    ensures r.state == StateToString(m.state)
    ensures r.body == m.body && r.subject == m.subject && r.correlationID == m.correlationID
    ensures r.applicationProperties == m.applicationProperties
    ensures r.contentType == m.contentType
    ensures r.deadLetterErrorDescription == m.deadLetterErrorDescription
    ensures r.deadLetterReason == m.deadLetterReason
    ensures r.deadLetterSource == m.deadLetterSource
    ensures r.deliveryCount == m.deliveryCount
    ensures r.enqueuedSequenceNumber == m.enqueuedSequenceNumber
    ensures r.enqueuedTime == m.enqueuedTime
    ensures r.expiresAt == m.expiresAt
    ensures r.lockedUntil == m.lockedUntil
    ensures r.lockToken == m.lockToken
    ensures r.messageID == m.messageID
    ensures r.partitionKey == m.partitionKey
    ensures r.replyTo == m.replyTo
    ensures r.replyToSessionID == m.replyToSessionID
    ensures r.scheduledEnqueueTime == m.scheduledEnqueueTime
    ensures r.sequenceNumber == m.sequenceNumber
    ensures r.sessionID == m.sessionID
    ensures r.timeToLive == m.timeToLive
    ensures r.to == m.to
  {
    SerializableMessage(
      m.applicationProperties, m.body, m.contentType, m.correlationID,
      m.deadLetterErrorDescription, m.deadLetterReason, m.deadLetterSource,
      m.deliveryCount, m.enqueuedSequenceNumber, m.enqueuedTime, m.expiresAt,
      m.lockedUntil, m.lockToken, m.messageID, m.partitionKey, m.replyTo,
      m.replyToSessionID, m.scheduledEnqueueTime, m.sequenceNumber, m.sessionID,
      StateToString(m.state), m.subject, m.timeToLive, m.to)
  }

  /** The record loses nothing but the exact code of an unknown state: two
      messages give the same record iff they agree on every field other
      than `state` and their states have the same name. */
  lemma ToSerializableMessageLosesOnlyStateCode(a: ReceivedMessage, b: ReceivedMessage)
    ensures ToSerializableMessage(a) == ToSerializableMessage(b) <==>
            a.(state := 0) == b.(state := 0) && StateToString(a.state) == StateToString(b.state)
  {
    if ToSerializableMessage(a) == ToSerializableMessage(b) {
      var ra, rb := ToSerializableMessage(a), ToSerializableMessage(b);
      assert ra.lockToken == rb.lockToken && ra.messageID == rb.messageID;
    }
  }

  /** A string pointer that is nil or points at "" counts as absent. */
  predicate Present(s: Option<string>) {
    s.Some? && s.value != ""
  }

  /** The outbound message published for a record: the body always, the
      subject and correlation id only when present and non-empty, the
      application properties as they are (nil stays nil); nothing else. */
  function TransformMessage(msg: SerializableMessage): (r: Message)
    ensures r.body == msg.body
    ensures r.subject.Some? <==> Present(msg.subject)
    ensures r.subject.Some? ==> r.subject == msg.subject
    ensures r.correlationID.Some? <==> Present(msg.correlationID)
    ensures r.correlationID.Some? ==> r.correlationID == msg.correlationID
    ensures r.applicationProperties == msg.applicationProperties
    ensures r.contentType.None? && r.messageID.None? && r.partitionKey.None?
    ensures r.replyTo.None? && r.replyToSessionID.None? && r.scheduledEnqueueTime.None?
    ensures r.sessionID.None? && r.timeToLive.None? && r.to.None?
  {
    var m := Message(None, msg.body, None, None, None, None, None, None, None, None, None, None, None);
    var m := if Present(msg.subject) then m.(subject := msg.subject) else m;
    var m := if Present(msg.correlationID) then m.(correlationID := msg.correlationID) else m;
    if msg.applicationProperties.Some? then m.(applicationProperties := msg.applicationProperties) else m
  }

  /** Publishing never depends on broker-assigned data: records that agree
      on body, subject, correlation id and properties publish identically. */
  lemma TransformIgnoresBrokerFields(a: SerializableMessage, b: SerializableMessage)
    requires a.body == b.body && a.subject == b.subject
    requires a.correlationID == b.correlationID
    requires a.applicationProperties == b.applicationProperties
    ensures TransformMessage(a) == TransformMessage(b)
  {
  }

  /** An empty subject or correlation id is published exactly as a missing one. */
  lemma TransformTreatsEmptyAsAbsent(msg: SerializableMessage)
    ensures TransformMessage(msg.(subject := Some(""))) == TransformMessage(msg.(subject := None))
    ensures TransformMessage(msg.(correlationID := Some(""))) == TransformMessage(msg.(correlationID := None))
  {
  }

  /** Drain then publish: a message with a non-empty subject and
      correlation id is republished with the same body, subject,
      correlation id and properties (nil ones staying nil), and nothing
      else set. */
  lemma RoundTrip(m: ReceivedMessage)
    requires Present(m.subject) && Present(m.correlationID)
    ensures TransformMessage(ToSerializableMessage(m)) ==
            Message(m.applicationProperties, m.body, None, m.correlationID, None, None,
                    None, None, None, None, m.subject, None, None)
  {
  }
}
