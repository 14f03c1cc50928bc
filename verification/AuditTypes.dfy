/** Deliveries, inbox rows and observations of the audit consumer, and what lies outside it. */
module AuditTypes {
  import opened Wrappers
  import opened Json
  import opened Messaging
  import Timestamps
  import Envelope

  type Bytes = seq<bv8>

  datatype Delivery = Delivery(
    body: Bytes, subject: string, stream: string, consumerName: string, natsMsgId: Option<string>,
    jetstreamSeq: Option<int>)

  /** A validated A2 message: the allow-listed fields. */
  datatype Message = Message(
    eventId: Uuid, correlationId: Uuid, sourceSystem: string, sourceTable: string, sourcePk: Uuid,
    sourcePosition: string, sourceModule: string, auditEntryId: Uuid, action: string, entityType: string,
    entityId: Uuid, actorType: string, actorId: Option<Uuid>, source: string, occurredAt: Timestamps.DateTime,
    mapperVersion: string,
    safeMetadata: map<string, Json>, eventType: string, eventVersion: int)

  datatype Observation = Observation(
    eventId: Uuid, sourceSystem: string, sourceTable: string, sourcePk: Uuid, sourcePosition: string,
    sourceModule: string, auditEntryId: Uuid, action: string, entityType: string, entityId: Uuid, actorType: string,
    actorId: Option<Uuid>, source: string, occurredAt: Timestamps.DateTime, mapperVersion: string,
    safeMetadata: map<string, Json>,
    receivedAt: Instant)

  function Project(m: Message, receivedAt: Instant): Observation {
    Observation(m.eventId, m.sourceSystem, m.sourceTable, m.sourcePk, m.sourcePosition, m.sourceModule, m.auditEntryId,
                m.action, m.entityType, m.entityId, m.actorType, m.actorId, m.source, m.occurredAt, m.mapperVersion,
                m.safeMetadata, receivedAt)
  }

  datatype InboxRow = InboxRow(
    consumerName: string, eventId: Uuid, eventType: string, eventVersion: int, status: InboxStatus,
    processingOwner: Option<string>, leaseUntil: Option<Instant>, handlerVersion: string, attemptCount: int,
    firstReceivedAt: Instant, lastReceivedAt: Instant, processedAt: Option<Instant>, quarantinedAt: Option<Instant>,
    lastErrorCode: Option<string>, lastErrorMessage: Option<string>, stream: string, seqNumber: Option<int>,
    correlationId: Option<Uuid>, natsMsgId: Option<string>, processingStartedAt: Option<Instant>)

  datatype InboxKey = InboxKey(consumerName: string, eventId: Uuid)

  /** The A2 entry of the event registry. */
  datatype Contract = Contract(
    eventType: string, eventVersion: int, subject: string, stream: string, durableConsumer: string, producer: string,
    sourceTable: string, sourceSystem: string, schemaUri: string, namespace: Uuid)

  /** json.loads of a body: not JSON at all, nested too deep for the decoder, JSON that is no object, or an object. */
  datatype Decoded = NotJson | NestedTooDeep | NotAnObject | Decoded(wire: Envelope.Wire)

  /** What deserializing and validating may raise past the handlers of `handle`. */
  datatype Escape = AttributeError | OverflowError | RecursionError

  /** Decoding of bytes, hashing and pattern matching, none of which this model looks into. */
  datatype Outside = Outside(
    codec: Envelope.Codec,
    decodeJson: Bytes -> Decoded,
    uuid5: (Uuid, string) -> Uuid,                                 // RFC 4122, section 4.3
    fingerprint: (string, string, string, Bytes) -> Uuid,          // id of a body that cannot be read
    forbiddenKey: string -> bool,                                  // secret-bearing metadata names
    secretLike: string -> bool,                                    // secret-like metadata text
    scanFrames: nat,                                               // calls the secret scan may nest
    copyFrames: nat,                                               // calls deepcopy may nest over a stored value
    itemsInOrder: map<string, Json> -> seq<(string, Json)>,        // dict.items() in iteration order
    sanitizeError: string -> string)

  /** deepcopy follows objects and lists alike, two calls a level, and a plain value takes two. */
  predicate Copyable(j: Json, frames: int) {
    frames >= 2 &&
    match j
    case Arr(items) => forall i :: 0 <= i < |items| ==> Copyable(items[i], frames - 2)
    case Obj(m) => forall k :: k in m ==> Copyable(m[k], frames - 2)
    case _ => true
  }

  predicate MetadataCopyable(m: map<string, Json>, frames: int) {
    forall k :: k in m ==> Copyable(m[k], frames)
  }

  /** Iterating a dictionary meets its items and nothing else. */
  ghost predicate IterationIsFair(out: Outside) {
    forall m: map<string, Json>, k: string, v: Json :: (k, v) in out.itemsInOrder(m) <==> k in m && m[k] == v
  }
}
