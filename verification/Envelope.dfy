/**
 The integration envelope and its wire form, at the level of decoded JSON dictionaries.

 A wire key is either one of the field names the envelope model knows or some other name. What happens outside
 this code -- JSON text, UUID text, int(), str(), the size of the encoded text, and the lax conversions the field
 types apply before a value is checked -- is a parameter of type Codec.
 */
module Envelope {
  import opened Wrappers
  import opened Json
  import opened Timestamps
  import opened Trace

  // ---------------------------------------------------------------- the envelope

  datatype MessageKind = Domain | Integration | Command | Reply | Projection
  datatype AggregateScope = Aggregate | NonAggregate
  datatype DataClassification = Public | Internal | Confidential | Restricted

  datatype MediaRef = MediaRef(refType: string, bucket: string, key: string, contentType: Option<string>)

  /** The field names listed in the model's _KNOWN_FIELDS. */
  datatype Field =
    | EnvelopeVersion | EventId | EventType | EventVersion | OccurredAt | PublishedAt | Producer | Kind | Scope
    | AggregateType | AggregateId | AggregateVersion | CorrelationId | CausationId | Traceparent | Tracestate
    | TenantId | OrganizationId | Classification | PiiPresent | SchemaUri | Payload | Metadata | MediaRefs
    | UnknownFields

  datatype Key = Known(field: Field) | Unknown(name: string)

  type Wire = map<Key, Json>

  datatype EventEnvelope = EventEnvelope(
    envelopeVersion: int, eventId: Uuid, eventType: string, eventVersion: int, occurredAt: DateTime,
    publishedAt: Option<DateTime>, producer: string, messageKind: MessageKind, aggregateScope: AggregateScope,
    aggregateType: Option<string>, aggregateId: Option<Uuid>, aggregateVersion: Option<int>, correlationId: Uuid,
    causationId: Option<Uuid>, traceparent: Option<string>, tracestate: Option<string>, tenantId: Option<Uuid>,
    organizationId: Option<Uuid>, dataClassification: DataClassification, piiPresent: bool,
    schemaUri: Option<string>, payload: map<string, Json>, metadata: Option<map<string, Json>>,
    mediaRefs: Option<seq<MediaRef>>, unknownFields: Wire)

  /** The last is int()'s own OverflowError on an infinity, which is no envelope error and no ValueError. */
  datatype EnvelopeError =
    | UnsupportedVersion(version: int)
    | UnknownFieldsRejected
    | InvalidTraceparent
    | InvalidEnvelope
    | TooLarge
    | IntOverflow

  datatype UnknownFieldPolicy = IgnoreUnknown | PreserveUnknown | RejectUnknown

  datatype SerdePolicy = SerdePolicy(unknown: UnknownFieldPolicy, trace: TraceContextPolicy)

  const CONSUMER_POLICY := SerdePolicy(PreserveUnknown, Normalize)
  const SUPPORTED_VERSION := 1
  const HARD_ENVELOPE_BYTES := 262144

  // ---------------------------------------------------------------- what lies outside

  /** int(): a value, a ValueError or TypeError, or an OverflowError. */
  datatype IntRead = Int(value: int) | NotInt | Overflows

  datatype Codec = Codec(
    formatUuid: Uuid -> string,
    parseUuid: string -> Option<Uuid>,
    otherTime: string -> Option<DateTime>,   // fromisoformat on shapes this model does not read itself
    toInt: Json -> IntRead,                  // int()
    toText: Json -> string,                  // str()
    coerce: (Field, Json) -> Json,           // the field types' lax conversions
    keyed: map<string, Json> -> Wire,        // a JSON object with its names as wire keys
    encodedSize: Wire -> nat)

  /** The JSON kind a field is written with. */
  predicate KindFits(f: Field, j: Json) {
    match f
    case EnvelopeVersion | EventVersion | AggregateVersion => j.Num?
    case PiiPresent => j.Bool?
    case Payload | Metadata | UnknownFields => j.Obj?
    case MediaRefs => j.Arr?
    case _ => j.Str?
  }

  predicate IsInfinite(j: Json) {
    j == Float("inf") || j == Float("-inf")
  }

  ghost predicate Lawful(c: Codec) {
    && (forall u :: c.parseUuid(c.formatUuid(u)) == Some(u))
    && (forall s, t :: c.otherTime(s) == Some(t) ==> Timestamps.Valid(t))
    && (forall n :: c.toInt(Num(n)) == Int(n))
    && (forall j :: c.toInt(j).Overflows? <==> IsInfinite(j))
    && (forall s :: c.toText(Str(s)) == s)
    && (forall f, j :: KindFits(f, j) ==> c.coerce(f, j) == j)
    && (forall j, n :: c.coerce(EnvelopeVersion, j) == Num(n) && c.toInt(j).Int? ==> c.toInt(j) == Int(n))
    && (forall j :: c.coerce(UnknownFields, j).Obj? ==> j.Obj?)
    && (forall m, k :: k in c.keyed(m) ==> exists s :: s in m && m[s] == c.keyed(m)[k])
  }

  function Tally(u: Uuid): (s: string)
    ensures |s| == u.bits
  {
    seq(u.bits, _ => '0')
  }

  function AllUnknown(m: map<string, Json>): (w: Wire)
    ensures forall k :: k in w ==> k.Unknown? && k.name in m && m[k.name] == w[k]
  {
    map s | s in m :: Unknown(s) := m[s]
  }

  /** The laws can be met together. */
  lemma LawsAreConsistent() returns (c: Codec)
    ensures Lawful(c)
  {
    c := Codec(
      Tally, (s: string) => Some(Uuid(|s|)), (s: string) => None,
      (j: Json) => if j.Num? then Int(j.number) else if IsInfinite(j) then Overflows else NotInt,
      (j: Json) => if j.Str? then j.text else "", (f: Field, j: Json) => j, AllUnknown, (w: Wire) => 0);
    forall m: map<string, Json>, k | k in c.keyed(m) ensures exists s :: s in m && m[s] == c.keyed(m)[k] {
      assert k.name in m && m[k.name] == c.keyed(m)[k];
    }
  }

  // ---------------------------------------------------------------- which envelopes the model admits

  predicate LengthWithin(s: string, low: nat, high: nat) {
    low <= |s| <= high
  }

  predicate ValidMediaRef(r: MediaRef) {
    && LengthWithin(r.refType, 1, 32) && LengthWithin(r.bucket, 1, 256) && LengthWithin(r.key, 1, 1024)
    && (r.contentType.Some? ==> |r.contentType.value| <= 128)
  }

  /** Aggregate messages name their aggregate, and all but replies order themselves; others carry none of it. */
  predicate AggregateIdentityHolds(e: EventEnvelope) {
    match e.aggregateScope
    case Aggregate =>
      && e.aggregateType.Some? && e.aggregateType.value != ""
      && e.aggregateId.Some?
      && (e.messageKind != Reply ==> e.aggregateVersion.Some?)
    case NonAggregate => e.aggregateType.None? && e.aggregateId.None? && e.aggregateVersion.None?
  }

  /** The constraints of the model's fields and validators. */
  predicate ValidEnvelope(e: EventEnvelope) {
    && e.envelopeVersion >= 1
    && LengthWithin(e.eventType, 1, 128)
    && e.eventVersion >= 1
    && LengthWithin(e.producer, 1, 64)
    && (e.aggregateType.Some? ==> |e.aggregateType.value| <= 64)
    && (e.aggregateVersion.Some? ==> e.aggregateVersion.value >= 0)
    && Timestamps.Valid(e.occurredAt)
    && (e.publishedAt.Some? ==> Timestamps.Valid(e.publishedAt.value))
    && (e.traceparent.Some? ==> Trace.IsCanonical(e.traceparent.value))
    && (e.mediaRefs.Some? ==> forall i :: 0 <= i < |e.mediaRefs.value| ==> ValidMediaRef(e.mediaRefs.value[i]))
    && AggregateIdentityHolds(e)
  }

  /** Timestamps the printer writes with a four-digit year. */
  predicate PrintableTimes(e: EventEnvelope) {
    e.occurredAt.year >= 1000 && (e.publishedAt.Some? ==> e.publishedAt.value.year >= 1000)
  }

  /** No preserved field bears the name of a field the model knows. */
  predicate UnknownsAreUnknown(w: Wire) {
    forall k :: k in w ==> k.Unknown?
  }

  // ---------------------------------------------------------------- writing

  function KindText(k: MessageKind): string {
    match k
    case Domain => "domain" case Integration => "integration" case Command => "command"
    case Reply => "reply" case Projection => "projection"
  }

  function ScopeText(s: AggregateScope): string {
    match s case Aggregate => "aggregate" case NonAggregate => "non_aggregate"
  }

  function ClassificationText(d: DataClassification): string {
    match d
    case Public => "public" case Internal => "internal"
    case Confidential => "confidential" case Restricted => "restricted"
  }

  function RefJson(r: MediaRef): Json {
    var required := map["ref_type" := Str(r.refType), "bucket" := Str(r.bucket), "key" := Str(r.key)];
    Obj(if r.contentType.Some? then required["content_type" := Str(r.contentType.value)] else required)
  }

  function RefsJson(refs: seq<MediaRef>): seq<Json> {
    seq(|refs|, i requires 0 <= i < |refs| => RefJson(refs[i]))
  }

  function OptStr(o: Option<string>): Option<Json> {
    if o.Some? then Some(Str(o.value)) else None
  }

  function OptUuid(c: Codec, o: Option<Uuid>): Option<Json> {
    if o.Some? then Some(Str(c.formatUuid(o.value))) else None
  }

  function OptTime(o: Option<DateTime>): Option<Json> {
    if o.Some? then Some(Str(FormatUtc(o.value))) else None
  }

  /** What the wire says under one known name: None when the field is omitted. */
  function FieldJson(c: Codec, e: EventEnvelope, f: Field): Option<Json> {
    match f
    case EnvelopeVersion => Some(Num(e.envelopeVersion))
    case EventId => Some(Str(c.formatUuid(e.eventId)))
    case EventType => Some(Str(e.eventType))
    case EventVersion => Some(Num(e.eventVersion))
    case OccurredAt => Some(Str(FormatUtc(e.occurredAt)))
    case PublishedAt => OptTime(e.publishedAt)
    case Producer => Some(Str(e.producer))
    case Kind => Some(Str(KindText(e.messageKind)))
    case Scope => Some(Str(ScopeText(e.aggregateScope)))
    case AggregateType => OptStr(e.aggregateType)
    case AggregateId => OptUuid(c, e.aggregateId)
    case AggregateVersion => if e.aggregateVersion.Some? then Some(Num(e.aggregateVersion.value)) else None
    case CorrelationId => Some(Str(c.formatUuid(e.correlationId)))
    case CausationId => OptUuid(c, e.causationId)
    case Traceparent => OptStr(e.traceparent)
    case Tracestate => OptStr(e.tracestate)
    case TenantId => OptUuid(c, e.tenantId)
    case OrganizationId => OptUuid(c, e.organizationId)
    case Classification => Some(Str(ClassificationText(e.dataClassification)))
    case PiiPresent => Some(Bool(e.piiPresent))
    case SchemaUri => OptStr(e.schemaUri)
    case Payload => Some(Obj(e.payload))
    case Metadata => if e.metadata.Some? then Some(Obj(e.metadata.value)) else None
    case MediaRefs => if e.mediaRefs.Some? then Some(Arr(RefsJson(e.mediaRefs.value))) else None
    case UnknownFields => None
  }

  /** The known fields of an envelope as a dictionary. */
  function KnownWire(c: Codec, e: EventEnvelope): Wire {
    map f: Field | FieldJson(c, e, f).Some? :: Known(f) := FieldJson(c, e, f).value
  }

  /** The wire form: the known fields, then the preserved ones, which win where the names meet. */
  function WireOf(c: Codec, e: EventEnvelope): Wire {
    KnownWire(c, e) + e.unknownFields
  }

  /** model_dump(exclude_none) leaves the final value under these names; the others are rewritten below. */
  predicate IsPlain(f: Field) {
    f in {EventType, EventVersion, Producer, PiiPresent, Payload, AggregateType, AggregateVersion, Traceparent,
          Tracestate, SchemaUri, Metadata}
  }

  function Dumped(c: Codec, e: EventEnvelope): Wire {
    map f: Field | IsPlain(f) && FieldJson(c, e, f).Some? :: Known(f) := FieldJson(c, e, f).value
  }

  function Entry(w: Wire, f: Field): Option<Json> {
    if Known(f) in w then Some(w[Known(f)]) else None
  }

  /** The dictionary has the final value of every plain field and of those in `done`, and nothing else. */
  ghost predicate Written(c: Codec, e: EventEnvelope, done: set<Field>, raw: Wire) {
    && (forall k :: k in raw ==> k.Known?)
    && (forall f: Field :: Entry(raw, f) == if IsPlain(f) || f in done then FieldJson(c, e, f) else None)
  }

  /** One assignment `raw[name] = value`, guarded when the field is optional. */
  method Put(c: Codec, e: EventEnvelope, ghost done: set<Field>, raw: Wire, f: Field, value: Option<Json>)
    returns (r: Wire, ghost now: set<Field>)
    requires Written(c, e, done, raw) && value == FieldJson(c, e, f)
    ensures Written(c, e, now, r) && now == done + {f}
  {
    now := done + {f};
    r := if value.Some? then raw[Known(f) := value.value] else raw;
    forall g: Field ensures Entry(r, g) == if IsPlain(g) || g in now then FieldJson(c, e, g) else None {
      assert Entry(raw, g) == if IsPlain(g) || g in done then FieldJson(c, e, g) else None;
    }
  }

  /** The media references are dumped one by one into a list. */
  method DumpRefs(refs: seq<MediaRef>) returns (items: seq<Json>)
    ensures items == RefsJson(refs)
  {
    items := [];
    for i := 0 to |refs|
      invariant |items| == i
      invariant forall j :: 0 <= j < i ==> items[j] == RefJson(refs[j])
    {
      items := items + [RefJson(refs[i])];
    }
  }

  /** The names rewritten after the dump. */
  ghost const REWRITTEN: set<Field> :=
    {EnvelopeVersion, EventId, CorrelationId, CausationId, AggregateId, TenantId, OrganizationId, OccurredAt,
     PublishedAt,
     Kind, Scope, Classification, MediaRefs}

  lemma EveryFieldIsWritten(f: Field)
    ensures IsPlain(f) || f in REWRITTEN || f == UnknownFields
  {
    match f case EnvelopeVersion => case _ =>
  }

  lemma KnownEntry(c: Codec, e: EventEnvelope, f: Field)
    ensures Entry(KnownWire(c, e), f) == FieldJson(c, e, f)
  {
  }

  lemma SameEntries(v: Wire, w: Wire)
    requires forall k :: k in v || k in w ==> k.Known?
    requires forall f: Field :: Entry(v, f) == Entry(w, f)
    ensures v == w
  {
    forall k ensures k in v <==> k in w
      ensures k in v && k in w ==> v[k] == w[k]
    {
      if k.Known? {
        assert Entry(v, k.field) == Entry(w, k.field);
      }
    }
  }

  lemma WrittenIsWhole(c: Codec, e: EventEnvelope, done: set<Field>, raw: Wire)
    requires Written(c, e, done, raw) && REWRITTEN <= done
    ensures raw == KnownWire(c, e)
  {
    forall f: Field ensures Entry(raw, f) == Entry(KnownWire(c, e), f) {
      EveryFieldIsWritten(f);
      KnownEntry(c, e, f);
    }
    SameEntries(raw, KnownWire(c, e));
  }

  lemma DumpIsWritten(c: Codec, e: EventEnvelope)
    ensures Written(c, e, {}, Dumped(c, e))
  {
  }

  /** The version and the mandatory identifiers. */
  method PutMandatory(c: Codec, e: EventEnvelope, raw0: Wire) returns (raw: Wire, ghost done: set<Field>)
    requires Written(c, e, {}, raw0)
    ensures Written(c, e, done, raw) && {EnvelopeVersion, EventId, CorrelationId} <= done
  {
    raw, done := Put(c, e, {}, raw0, EnvelopeVersion, Some(Num(e.envelopeVersion)));
    raw, done := Put(c, e, done, raw, EventId, Some(Str(c.formatUuid(e.eventId))));
    raw, done := Put(c, e, done, raw, CorrelationId, Some(Str(c.formatUuid(e.correlationId))));
  }

  /** The optional identifiers, each only when it is there. */
  method PutIdentifiers(c: Codec, e: EventEnvelope, raw0: Wire, ghost done0: set<Field>)
    returns (raw: Wire, ghost done: set<Field>)
    requires Written(c, e, done0, raw0)
    ensures Written(c, e, done, raw) && done0 + {CausationId, AggregateId, TenantId, OrganizationId} <= done
  {
    raw, done := Put(c, e, done0, raw0, CausationId, OptUuid(c, e.causationId));
    raw, done := Put(c, e, done, raw, AggregateId, OptUuid(c, e.aggregateId));
    raw, done := Put(c, e, done, raw, TenantId, OptUuid(c, e.tenantId));
    raw, done := Put(c, e, done, raw, OrganizationId, OptUuid(c, e.organizationId));
  }

  /** The timestamps, rewritten as text. */
  method PutTimes(c: Codec, e: EventEnvelope, raw0: Wire, ghost done0: set<Field>)
    returns (raw: Wire, ghost done: set<Field>)
    requires Written(c, e, done0, raw0)
    ensures Written(c, e, done, raw) && done0 + {OccurredAt, PublishedAt} <= done
  {
    raw, done := Put(c, e, done0, raw0, OccurredAt, Some(Str(FormatUtc(e.occurredAt))));
    raw, done := Put(c, e, done, raw, PublishedAt, OptTime(e.publishedAt));
  }

  /** The enumerations, rewritten as text. */
  method PutEnumerations(c: Codec, e: EventEnvelope, raw0: Wire, ghost done0: set<Field>)
    returns (raw: Wire, ghost done: set<Field>)
    requires Written(c, e, done0, raw0)
    ensures Written(c, e, done, raw) && done0 + {Kind, Scope, Classification} <= done
  {
    raw, done := Put(c, e, done0, raw0, Kind, Some(Str(KindText(e.messageKind))));
    raw, done := Put(c, e, done, raw, Scope, Some(Str(ScopeText(e.aggregateScope))));
    raw, done := Put(c, e, done, raw, Classification, Some(Str(ClassificationText(e.dataClassification))));
  }

  /** The media references, when there are any. */
  method PutRefs(c: Codec, e: EventEnvelope, raw0: Wire, ghost done0: set<Field>)
    returns (raw: Wire, ghost done: set<Field>)
    requires Written(c, e, done0, raw0)
    ensures Written(c, e, done, raw) && done == done0 + {MediaRefs}
  {
    var refs: Option<Json> := None;
    if e.mediaRefs.Some? {
      var items := DumpRefs(e.mediaRefs.value);
      refs := Some(Arr(items));
    }
    raw, done := Put(c, e, done0, raw0, MediaRefs, refs);
  }

  /** The dump is completed name by name in a local dictionary; what results is the wire form. */
  method ModelDumpJsonReady(c: Codec, e: EventEnvelope) returns (raw: Wire)
    ensures raw == WireOf(c, e)
  {
    ghost var done: set<Field>;
    raw := Dumped(c, e);
    DumpIsWritten(c, e);
    raw, done := PutMandatory(c, e, raw);
    raw, done := PutIdentifiers(c, e, raw, done);
    raw, done := PutTimes(c, e, raw, done);
    raw, done := PutEnumerations(c, e, raw, done);
    raw, done := PutRefs(c, e, raw, done);
    WrittenIsWhole(c, e, done, raw);
    raw := raw + e.unknownFields;
  }

  /** The size limit is checked on the encoded text, after the dictionary is built. */
  function Serialize(c: Codec, policy: SerdePolicy, e: EventEnvelope): Result<Wire, EnvelopeError> {
    if policy.unknown.RejectUnknown? && e.unknownFields != map[] then Err(UnknownFieldsRejected)
    else if c.encodedSize(WireOf(c, e)) > HARD_ENVELOPE_BYTES then Err(TooLarge)
    else Ok(WireOf(c, e))
  }

  // ---------------------------------------------------------------- reading

  datatype Read<+T> = Absent | Bad | Got(value: T)

  function AsOption<T>(r: Read<T>): Option<T> {
    if r.Got? then Some(r.value) else None
  }

  /** A missing key and an explicit null both leave an optional field empty. */
  function Raw(c: Codec, w: Wire, f: Field): Option<Json> {
    if Known(f) !in w || w[Known(f)].Null? then None else Some(c.coerce(f, w[Known(f)]))
  }

  function ReadBool(c: Codec, w: Wire, f: Field): Read<bool> {
    match Raw(c, w, f)
    case None => Absent
    case Some(j) => if j.Bool? then Got(j.flag) else Bad
  }

  function ReadStr(c: Codec, w: Wire, f: Field): Read<string> {
    match Raw(c, w, f)
    case None => Absent
    case Some(j) => if j.Str? then Got(j.text) else Bad
  }

  function ReadInt(c: Codec, w: Wire, f: Field): Read<int> {
    match Raw(c, w, f)
    case None => Absent
    case Some(j) => if j.Num? then Got(j.number) else Bad
  }

  function ReadUuid(c: Codec, w: Wire, f: Field): Read<Uuid> {
    match ReadStr(c, w, f)
    case Absent => Absent
    case Bad => Bad
    case Got(s) => if c.parseUuid(s).Some? then Got(c.parseUuid(s).value) else Bad
  }

  function ReadTime(c: Codec, w: Wire, f: Field): Read<DateTime> {
    match ReadStr(c, w, f)
    case Absent => Absent
    case Bad => Bad
    case Got(s) => if ParseUtc(c.otherTime, s).Some? then Got(ParseUtc(c.otherTime, s).value) else Bad
  }

  function ReadObj(c: Codec, w: Wire, f: Field): Read<map<string, Json>> {
    match Raw(c, w, f)
    case None => Absent
    case Some(j) => if j.Obj? then Got(j.fields) else Bad
  }

  /** Extra keys are forbidden inside a media reference. */
  function ParseRef(j: Json): Option<MediaRef> {
    if !j.Obj? || !(j.fields.Keys <= {"ref_type", "bucket", "key", "content_type"}) then None
    else
      var d := j.fields;
      if !("ref_type" in d && d["ref_type"].Str? && "bucket" in d && d["bucket"].Str? && "key" in d
            && d["key"].Str?) then None
      else if "content_type" in d && !d["content_type"].Null? && !d["content_type"].Str? then None
      else
        var contentType := if "content_type" in d && d["content_type"].Str? then Some(d["content_type"].text) else None;
        var r := MediaRef(d["ref_type"].text, d["bucket"].text, d["key"].text, contentType);
        if ValidMediaRef(r) then Some(r) else None
  }

  function ParseRefs(items: seq<Json>): Option<seq<MediaRef>> {
    if items == [] then Some([])
    else
      var first, rest := ParseRef(items[0]), ParseRefs(items[1..]);
      if first.Some? && rest.Some? then Some([first.value] + rest.value) else None
  }

  function ReadRefs(c: Codec, w: Wire): Read<seq<MediaRef>> {
    match Raw(c, w, MediaRefs)
    case None => Absent
    case Some(j) =>
      if !j.Arr? then Bad
      else if ParseRefs(j.items).Some? then Got(ParseRefs(j.items).value) else Bad
  }

  function KindOf(s: string): Option<MessageKind> {
    if s == "domain" then Some(Domain) else if s == "integration" then Some(Integration)
    else if s == "command" then Some(Command) else if s == "reply" then Some(Reply)
    else if s == "projection" then Some(Projection) else None
  }

  function ScopeOf(s: string): Option<AggregateScope> {
    if s == "aggregate" then Some(Aggregate) else if s == "non_aggregate" then Some(NonAggregate) else None
  }

  function ClassificationOf(s: string): Option<DataClassification> {
    if s == "public" then Some(Public) else if s == "internal" then Some(Internal)
    else if s == "confidential" then Some(Confidential) else if s == "restricted" then Some(Restricted) else None
  }

  /** A wire that names `unknown_fields` itself fills the field of that name. */
  function ReadUnknowns(c: Codec, w: Wire): Read<Wire> {
    if Known(UnknownFields) !in w then Got(map[])
    else
      var j := c.coerce(UnknownFields, w[Known(UnknownFields)]);
      if j.Obj? then Got(c.keyed(j.fields)) else Bad
  }

  /** The version defaults to 1 when the key is missing. */
  function ReadVersion(c: Codec, w: Wire): Read<int> {
    if Known(EnvelopeVersion) !in w then Got(SUPPORTED_VERSION) else ReadInt(c, w, EnvelopeVersion)
  }

  /** The field validator normalises a traceparent again and refuses an invalid one. */
  function ReadTraceparent(c: Codec, w: Wire): Read<string> {
    match ReadStr(c, w, Traceparent)
    case Absent => Absent
    case Bad => Bad
    case Got(s) => if NormalizeTraceparent(s).Some? then Got(NormalizeTraceparent(s).value) else Bad
  }

  function Enumerated<T>(r: Read<string>, of: string -> Option<T>): Read<T> {
    match r
    case Absent => Absent
    case Bad => Bad
    case Got(s) => if of(s).Some? then Got(of(s).value) else Bad
  }

  /** Every field as the reader of its type sees it. */
  datatype Reads = Reads(
    version: Read<int>, eventId: Read<Uuid>, eventType: Read<string>, eventVersion: Read<int>,
    occurredAt: Read<DateTime>,
    publishedAt: Read<DateTime>, producer: Read<string>, kind: Read<MessageKind>, scope: Read<AggregateScope>,
    aggregateType: Read<string>, aggregateId: Read<Uuid>, aggregateVersion: Read<int>, correlationId: Read<Uuid>,
    causationId: Read<Uuid>, traceparent: Read<string>, tracestate: Read<string>, tenantId: Read<Uuid>,
    organizationId: Read<Uuid>, classification: Read<DataClassification>, pii: Read<bool>, schemaUri: Read<string>,
    payload: Read<map<string, Json>>, metadata: Read<map<string, Json>>, mediaRefs: Read<seq<MediaRef>>,
    unknowns: Read<Wire>)
  {
    predicate RequiredGot() {
      && version.Got? && eventId.Got? && eventType.Got? && eventVersion.Got? && occurredAt.Got? && producer.Got?
      && kind.Got?
      && scope.Got? && correlationId.Got? && classification.Got? && pii.Got? && payload.Got? && unknowns.Got?
    }

    predicate OptionalBad() {
      || publishedAt.Bad? || aggregateType.Bad? || aggregateId.Bad? || aggregateVersion.Bad? || causationId.Bad?
      || traceparent.Bad? || tracestate.Bad? || tenantId.Bad? || organizationId.Bad? || schemaUri.Bad? || metadata.Bad?
      || mediaRefs.Bad?
    }

    function Built(): EventEnvelope
      requires RequiredGot()
    {
      EventEnvelope(
        version.value, eventId.value, eventType.value, eventVersion.value, occurredAt.value, AsOption(publishedAt),
        producer.value, kind.value, scope.value, AsOption(aggregateType), AsOption(aggregateId),
        AsOption(aggregateVersion), correlationId.value, AsOption(causationId), AsOption(traceparent),
        AsOption(tracestate), AsOption(tenantId), AsOption(organizationId), classification.value, pii.value,
        AsOption(schemaUri), payload.value, AsOption(metadata), AsOption(mediaRefs), unknowns.value)
    }

    /** The model is built only from fields that were all readable, and then checked. */
    function Assemble(): Option<EventEnvelope> {
      if !RequiredGot() || OptionalBad() || !ValidEnvelope(Built()) then None else Some(Built())
    }
  }

  function ReadAll(c: Codec, w: Wire): Reads {
    Reads(
      ReadVersion(c, w), ReadUuid(c, w, EventId), ReadStr(c, w, EventType), ReadInt(c, w, EventVersion),
      ReadTime(c, w, OccurredAt), ReadTime(c, w, PublishedAt), ReadStr(c, w, Producer),
      Enumerated(ReadStr(c, w, Kind), KindOf), Enumerated(ReadStr(c, w, Scope), ScopeOf), ReadStr(c, w, AggregateType),
      ReadUuid(c, w, AggregateId), ReadInt(c, w, AggregateVersion), ReadUuid(c, w, CorrelationId),
      ReadUuid(c, w, CausationId), ReadTraceparent(c, w), ReadStr(c, w, Tracestate), ReadUuid(c, w, TenantId),
      ReadUuid(c, w, OrganizationId), Enumerated(ReadStr(c, w, Classification), ClassificationOf),
      ReadBool(c, w, PiiPresent),
      ReadStr(c, w, SchemaUri), ReadObj(c, w, Payload), ReadObj(c, w, Metadata), ReadRefs(c, w), ReadUnknowns(c, w))
  }

  function Validate(c: Codec, w: Wire): Option<EventEnvelope> {
    ReadAll(c, w).Assemble()
  }

  /** int() of the version key, 1 when it is missing; int(None) is a TypeError. */
  function VersionGiven(c: Codec, w: Wire): IntRead {
    if Known(EnvelopeVersion) !in w then Int(SUPPORTED_VERSION)
    else if w[Known(EnvelopeVersion)].Null? then NotInt
    else c.toInt(w[Known(EnvelopeVersion)])
  }

  function UnknownPart(w: Wire): (u: Wire)
    ensures UnknownsAreUnknown(u)
    ensures UnknownsAreUnknown(w) ==> u == w
  {
    map k | k in w && k.Unknown? :: w[k]
  }

  function WithTraceparent(w: Wire, t: Option<string>): Wire {
    w[Known(Traceparent) := if t.Some? then Str(t.value) else Null]
  }

  /** The wire with its traceparent passed through the policy; None is the raised error. */
  function WithTracePolicy(c: Codec, policy: TraceContextPolicy, w: Wire): Option<Wire> {
    var key := Known(Traceparent);
    if key !in w || w[key].Null? then Some(w)
    else
      var applied := ApplyPolicy(c.toText(w[key]), policy);
      if applied.None? then None
      else Some(WithTraceparent(w, applied.value))
  }

  /** parse_envelope_json: version, unknown names, trace context, model, in that order. */
  function Parse(c: Codec, policy: SerdePolicy, w: Wire): Result<EventEnvelope, EnvelopeError> {
    var version := VersionGiven(c, w);
    if version.Overflows? then Err(IntOverflow)
    else if version.NotInt? then Err(InvalidEnvelope)
    else if version.value != SUPPORTED_VERSION then Err(UnsupportedVersion(version.value))
    else if policy.unknown.RejectUnknown? && UnknownPart(w) != map[] then Err(UnknownFieldsRejected)
    else
      var traced := WithTracePolicy(c, policy.trace, w);
      if traced.None? then Err(InvalidTraceparent)
      else
        var validated := Validate(c, traced.value);
        var preserved := if policy.unknown.PreserveUnknown? then UnknownPart(w) else map[];
        if validated.None? then Err(InvalidEnvelope)
        else if preserved != map[] then Ok(validated.value.(unknownFields := preserved))
        else Ok(validated.value)
  }

  /** The parser overflows, whatever its policy, exactly on an infinite version. */
  lemma OverflowsExactly(c: Codec, policy: SerdePolicy, w: Wire)
    requires Lawful(c)
    ensures Parse(c, policy, w) == Err(IntOverflow) <==>
      Known(EnvelopeVersion) in w && IsInfinite(w[Known(EnvelopeVersion)])
  {
    if Known(EnvelopeVersion) in w {
      assert c.toInt(w[Known(EnvelopeVersion)]).Overflows? <==> IsInfinite(w[Known(EnvelopeVersion)]);
    }
  }

  // ---------------------------------------------------------------- round trip

  /** The envelope with its timestamps cut to the millisecond. */
  function FloorTimes(e: EventEnvelope): EventEnvelope {
    e.(occurredAt := FloorMillis(e.occurredAt),
       publishedAt := if e.publishedAt.Some? then Some(FloorMillis(e.publishedAt.value)) else None)
  }

  lemma FieldFits(c: Codec, e: EventEnvelope, f: Field)
    ensures FieldJson(c, e, f).Some? ==> KindFits(f, FieldJson(c, e, f).value) && !FieldJson(c, e, f).value.Null?
  {
  }

  /** What a reader makes of an optional field that was written from `o`. */
  function Given<T>(o: Option<T>): Read<T> {
    if o.Some? then Got(o.value) else Absent
  }

  /** The wire says, under every known name, what the envelope says there. */
  ghost predicate Carries(c: Codec, e: EventEnvelope, w: Wire) {
    forall f: Field :: Entry(w, f) == FieldJson(c, e, f)
  }

  lemma WireCarries(c: Codec, e: EventEnvelope)
    requires UnknownsAreUnknown(e.unknownFields)
    ensures Carries(c, e, WireOf(c, e))
  {
    forall f: Field ensures Entry(WireOf(c, e), f) == FieldJson(c, e, f) {
      assert Known(f) !in e.unknownFields;
    }
  }

  /** A known field is read from the wire just as it was written. */
  lemma RawReadsBack(c: Codec, e: EventEnvelope, w: Wire, f: Field)
    requires Lawful(c) && Carries(c, e, w)
    ensures Raw(c, w, f) == FieldJson(c, e, f) && Entry(w, f) == FieldJson(c, e, f)
  {
    FieldFits(c, e, f);
    assert Entry(w, f) == FieldJson(c, e, f);
  }

  lemma UuidReadsBack(c: Codec, e: EventEnvelope, w: Wire, f: Field, o: Option<Uuid>)
    requires Lawful(c) && Carries(c, e, w) && FieldJson(c, e, f) == OptUuid(c, o)
    ensures ReadUuid(c, w, f) == Given(o)
  {
    RawReadsBack(c, e, w, f);
  }

  lemma StrReadsBack(c: Codec, e: EventEnvelope, w: Wire, f: Field, o: Option<string>)
    requires Lawful(c) && Carries(c, e, w) && FieldJson(c, e, f) == OptStr(o)
    ensures ReadStr(c, w, f) == Given(o)
  {
    RawReadsBack(c, e, w, f);
  }

  lemma TimeReadsBack(c: Codec, e: EventEnvelope, w: Wire, f: Field, o: Option<DateTime>)
    requires Lawful(c) && Carries(c, e, w) && FieldJson(c, e, f) == OptTime(o)
    requires o.Some? ==> Timestamps.Valid(o.value) && o.value.year >= 1000
    ensures ReadTime(c, w, f) == if o.Some? then Got(FloorMillis(o.value)) else Absent
  {
    RawReadsBack(c, e, w, f);
    if o.Some? {
      ParseOfFormat(c.otherTime, o.value);
    }
  }

  lemma RequiredUuidsReadBack(c: Codec, e: EventEnvelope, w: Wire)
    requires Lawful(c) && Carries(c, e, w)
    ensures ReadUuid(c, w, EventId) == Got(e.eventId) && ReadUuid(c, w, CorrelationId) == Got(e.correlationId)
  {
    UuidReadsBack(c, e, w, EventId, Some(e.eventId));
    UuidReadsBack(c, e, w, CorrelationId, Some(e.correlationId));
  }

  lemma OptionalUuidsReadBack(c: Codec, e: EventEnvelope, w: Wire)
    requires Lawful(c) && Carries(c, e, w)
    ensures
      && ReadUuid(c, w, AggregateId) == Given(e.aggregateId) && ReadUuid(c, w, CausationId) == Given(e.causationId)
      && ReadUuid(c, w, TenantId) == Given(e.tenantId) && ReadUuid(c, w, OrganizationId) == Given(e.organizationId)
  {
    UuidReadsBack(c, e, w, AggregateId, e.aggregateId);
    UuidReadsBack(c, e, w, CausationId, e.causationId);
    UuidReadsBack(c, e, w, TenantId, e.tenantId);
    UuidReadsBack(c, e, w, OrganizationId, e.organizationId);
  }

  lemma TimesReadBack(c: Codec, e: EventEnvelope, w: Wire)
    requires Lawful(c) && Carries(c, e, w) && ValidEnvelope(e) && PrintableTimes(e)
    ensures
      && ReadTime(c, w, OccurredAt) == Got(FloorMillis(e.occurredAt))
      && ReadTime(c, w, PublishedAt) == Given(FloorTimes(e).publishedAt)
  {
    TimeReadsBack(c, e, w, OccurredAt, Some(e.occurredAt));
    TimeReadsBack(c, e, w, PublishedAt, e.publishedAt);
  }

  lemma RequiredTextsReadBack(c: Codec, e: EventEnvelope, w: Wire)
    requires Lawful(c) && Carries(c, e, w)
    ensures
      && ReadStr(c, w, EventType) == Got(e.eventType) && ReadStr(c, w, Producer) == Got(e.producer)
      && ReadStr(c, w, AggregateType) == Given(e.aggregateType)
  {
    StrReadsBack(c, e, w, EventType, Some(e.eventType));
    StrReadsBack(c, e, w, Producer, Some(e.producer));
    StrReadsBack(c, e, w, AggregateType, e.aggregateType);
  }

  lemma TraceTextsReadBack(c: Codec, e: EventEnvelope, w: Wire)
    requires Lawful(c) && Carries(c, e, w) && ValidEnvelope(e)
    ensures
      && ReadStr(c, w, Tracestate) == Given(e.tracestate) && ReadStr(c, w, SchemaUri) == Given(e.schemaUri)
      && ReadTraceparent(c, w) == Given(e.traceparent)
  {
    StrReadsBack(c, e, w, Tracestate, e.tracestate);
    StrReadsBack(c, e, w, SchemaUri, e.schemaUri);
    StrReadsBack(c, e, w, Traceparent, e.traceparent);
    if e.traceparent.Some? {
      CanonicalIsFixed(e.traceparent.value);
    }
  }

  lemma EnumerationsReadBack(c: Codec, e: EventEnvelope, w: Wire)
    requires Lawful(c) && Carries(c, e, w)
    ensures
      && Enumerated(ReadStr(c, w, Kind), KindOf) == Got(e.messageKind)
      && Enumerated(ReadStr(c, w, Scope), ScopeOf) == Got(e.aggregateScope)
      && Enumerated(ReadStr(c, w, Classification), ClassificationOf) == Got(e.dataClassification)
  {
    RawReadsBack(c, e, w, Kind);
    RawReadsBack(c, e, w, Scope);
    RawReadsBack(c, e, w, Classification);
  }

  lemma RefReadsBack(r: MediaRef)
    requires ValidMediaRef(r)
    ensures ParseRef(RefJson(r)) == Some(r)
  {
    var d := RefJson(r).fields;
    assert "content_type" in d <==> r.contentType.Some?;
    assert d["ref_type"] == Str(r.refType) && d["bucket"] == Str(r.bucket) && d["key"] == Str(r.key);
    assert d.Keys <= {"ref_type", "bucket", "key", "content_type"};
  }

  lemma {:induction false} RefsReadBack(refs: seq<MediaRef>)
    requires forall i :: 0 <= i < |refs| ==> ValidMediaRef(refs[i])
    ensures ParseRefs(RefsJson(refs)) == Some(refs)
  {
    if refs != [] {
      var items := RefsJson(refs);
      assert items[1..] == RefsJson(refs[1..]);
      RefsReadBack(refs[1..]);
      RefReadsBack(refs[0]);
      assert [refs[0]] + refs[1..] == refs;
    }
  }

  lemma NumbersReadBack(c: Codec, e: EventEnvelope, w: Wire)
    requires Lawful(c) && Carries(c, e, w)
    ensures
      && ReadVersion(c, w) == Got(e.envelopeVersion) && ReadInt(c, w, EventVersion) == Got(e.eventVersion)
      && ReadInt(c, w, AggregateVersion) == Given(e.aggregateVersion) && ReadBool(c, w, PiiPresent) == Got(e.piiPresent)
  {
    RawReadsBack(c, e, w, EnvelopeVersion);
    RawReadsBack(c, e, w, EventVersion);
    RawReadsBack(c, e, w, AggregateVersion);
    RawReadsBack(c, e, w, PiiPresent);
  }

  lemma ObjReadsBack(c: Codec, e: EventEnvelope, w: Wire, f: Field, o: Option<map<string, Json>>)
    requires Lawful(c) && Carries(c, e, w) && FieldJson(c, e, f) == if o.Some? then Some(Obj(o.value)) else None
    ensures ReadObj(c, w, f) == Given(o)
  {
    RawReadsBack(c, e, w, f);
  }

  lemma NoUnknownsReadBack(c: Codec, e: EventEnvelope, w: Wire)
    requires Carries(c, e, w)
    ensures ReadUnknowns(c, w) == Got(map[])
  {
    assert Entry(w, UnknownFields) == FieldJson(c, e, UnknownFields);
  }

  lemma ObjectsReadBack(c: Codec, e: EventEnvelope, w: Wire)
    requires Lawful(c) && Carries(c, e, w)
    ensures
      && ReadObj(c, w, Payload) == Got(e.payload) && ReadObj(c, w, Metadata) == Given(e.metadata)
      && ReadUnknowns(c, w) == Got(map[])
  {
    ObjReadsBack(c, e, w, Payload, Some(e.payload));
    ObjReadsBack(c, e, w, Metadata, e.metadata);
    NoUnknownsReadBack(c, e, w);
  }

  lemma ArrReadsBack(c: Codec, w: Wire, o: Option<seq<MediaRef>>)
    requires Raw(c, w, MediaRefs) == if o.Some? then Some(Arr(RefsJson(o.value))) else None
    requires o.Some? ==> forall i :: 0 <= i < |o.value| ==> ValidMediaRef(o.value[i])
    ensures ReadRefs(c, w) == Given(o)
  {
    if o.Some? {
      RefsReadBack(o.value);
    }
  }

  lemma MediaRefsReadBack(c: Codec, e: EventEnvelope, w: Wire)
    requires Lawful(c) && Carries(c, e, w) && ValidEnvelope(e)
    ensures ReadRefs(c, w) == Given(e.mediaRefs)
  {
    RawReadsBack(c, e, w, MediaRefs);
    ArrReadsBack(c, w, e.mediaRefs);
  }

  lemma FloorKeepsValid(e: EventEnvelope)
    requires ValidEnvelope(e)
    ensures ValidEnvelope(FloorTimes(e)) && ValidEnvelope(FloorTimes(e).(unknownFields := map[]))
  {
  }

  /** What a reader of the wire form of e must see. */
  function ReadsOf(e: EventEnvelope): Reads {
    Reads(
      Got(e.envelopeVersion), Got(e.eventId), Got(e.eventType), Got(e.eventVersion), Got(e.occurredAt),
      Given(e.publishedAt),
      Got(e.producer), Got(e.messageKind), Got(e.aggregateScope), Given(e.aggregateType), Given(e.aggregateId),
      Given(e.aggregateVersion), Got(e.correlationId), Given(e.causationId), Given(e.traceparent), Given(e.tracestate),
      Given(e.tenantId), Given(e.organizationId), Got(e.dataClassification), Got(e.piiPresent), Given(e.schemaUri),
      Got(e.payload), Given(e.metadata), Given(e.mediaRefs), Got(map[]))
  }

  lemma AssembleOfReads(e: EventEnvelope)
    requires ValidEnvelope(e)
    ensures ReadsOf(e).Assemble() == Some(e.(unknownFields := map[]))
  {
  }

  lemma AllReadsBack(c: Codec, e: EventEnvelope, w: Wire)
    requires Lawful(c) && Carries(c, e, w) && ValidEnvelope(e) && PrintableTimes(e)
    ensures ReadAll(c, w) == ReadsOf(FloorTimes(e))
  {
    RequiredUuidsReadBack(c, e, w);
    OptionalUuidsReadBack(c, e, w);
    TimesReadBack(c, e, w);
    RequiredTextsReadBack(c, e, w);
    TraceTextsReadBack(c, e, w);
    EnumerationsReadBack(c, e, w);
    NumbersReadBack(c, e, w);
    ObjectsReadBack(c, e, w);
    MediaRefsReadBack(c, e, w);
  }

  lemma ValidateOfWire(c: Codec, e: EventEnvelope)
    requires Lawful(c) && UnknownsAreUnknown(e.unknownFields) && ValidEnvelope(e) && PrintableTimes(e)
    ensures Validate(c, WireOf(c, e)) == Some(FloorTimes(e).(unknownFields := map[]))
  {
    WireCarries(c, e);
    AllReadsBack(c, e, WireOf(c, e));
    FloorKeepsValid(e);
    AssembleOfReads(FloorTimes(e));
  }

  /** The preserved part of a wire form is what the envelope preserved under names it does not know. */
  lemma UnknownPartOfWire(c: Codec, e: EventEnvelope)
    ensures UnknownPart(WireOf(c, e)) == UnknownPart(e.unknownFields)
  {
  }

  lemma SameTraceparent(w: Wire, s: string)
    requires Entry(w, Traceparent) == Some(Str(s))
    ensures WithTraceparent(w, Some(s)) == w
  {
  }

  lemma TracePolicyOfWire(c: Codec, e: EventEnvelope, w: Wire, policy: TraceContextPolicy)
    requires Lawful(c) && Entry(w, Traceparent) == OptStr(e.traceparent) && !policy.Ignore?
    requires e.traceparent.Some? ==> IsCanonical(e.traceparent.value)
    ensures WithTracePolicy(c, policy, w) == Some(w)
  {
    if e.traceparent.Some? {
      var s := e.traceparent.value;
      assert c.toText(Str(s)) == s;
      PolicyKeepsCanonical(s, policy);
      SameTraceparent(w, s);
    }
  }

  lemma WireIsTraced(c: Codec, e: EventEnvelope)
    requires Lawful(c) && ValidEnvelope(e) && UnknownsAreUnknown(e.unknownFields)
    ensures WithTracePolicy(c, Normalize, WireOf(c, e)) == Some(WireOf(c, e))
  {
    WireCarries(c, e);
    assert Entry(WireOf(c, e), Traceparent) == FieldJson(c, e, Traceparent);
    TracePolicyOfWire(c, e, WireOf(c, e), Normalize);
  }

  lemma VersionOfWire(c: Codec, e: EventEnvelope)
    requires Lawful(c) && UnknownsAreUnknown(e.unknownFields)
    ensures VersionGiven(c, WireOf(c, e)) == Int(e.envelopeVersion)
  {
    WireCarries(c, e);
    RawReadsBack(c, e, WireOf(c, e), EnvelopeVersion);
  }

  lemma ParseInSteps(c: Codec, w: Wire, e: EventEnvelope)
    requires VersionGiven(c, w) == Int(SUPPORTED_VERSION) && WithTracePolicy(c, Normalize, w) == Some(w)
    requires Validate(c, w) == Some(e.(unknownFields := map[])) && UnknownPart(w) == e.unknownFields
    ensures Parse(c, CONSUMER_POLICY, w) == Ok(e)
  {
  }

  /** A consumer reads back what was written, timestamps cut to the millisecond. */
  lemma ParseOfWire(c: Codec, e: EventEnvelope)
    requires Lawful(c) && ValidEnvelope(e) && PrintableTimes(e) && e.envelopeVersion == SUPPORTED_VERSION
    requires UnknownsAreUnknown(e.unknownFields)
    ensures Parse(c, CONSUMER_POLICY, WireOf(c, e)) == Ok(FloorTimes(e))
  {
    VersionOfWire(c, e);
    WireIsTraced(c, e);
    ValidateOfWire(c, e);
    UnknownPartOfWire(c, e);
    ParseInSteps(c, WireOf(c, e), FloorTimes(e));
  }

  // ---------------------------------------------------------------- exactly when it holds

  lemma AssembledParts(r: Reads)
    requires r.Assemble().Some?
    ensures var e := r.Assemble().value;
      ValidEnvelope(e) && r.version == Got(e.envelopeVersion) && r.unknowns == Got(e.unknownFields)
  {
  }

  lemma ValidatedParts(c: Codec, w: Wire)
    requires Validate(c, w).Some?
    ensures var e := Validate(c, w).value;
      ValidEnvelope(e) && ReadVersion(c, w) == Got(e.envelopeVersion) && ReadUnknowns(c, w) == Got(e.unknownFields)
  {
    AssembledParts(ReadAll(c, w));
  }

  lemma TraceparentIsOneKey(c: Codec, w: Wire, t: Option<string>)
    ensures ReadVersion(c, WithTraceparent(w, t)) == ReadVersion(c, w)
    ensures ReadUnknowns(c, WithTraceparent(w, t)) == ReadUnknowns(c, w)
  {
  }

  /** The trace policy touches one key only. */
  lemma TracedReads(c: Codec, policy: TraceContextPolicy, w: Wire)
    requires WithTracePolicy(c, policy, w).Some?
    ensures var t := WithTracePolicy(c, policy, w).value;
      ReadVersion(c, t) == ReadVersion(c, w) && ReadUnknowns(c, t) == ReadUnknowns(c, w)
  {
    if Known(Traceparent) in w && !w[Known(Traceparent)].Null? {
      TraceparentIsOneKey(c, w, ApplyPolicy(c.toText(w[Known(Traceparent)]), policy).value);
    }
  }

  lemma VersionsAgree(c: Codec, w: Wire, n: int)
    requires Lawful(c) && ReadVersion(c, w) == Got(n) && VersionGiven(c, w).Int?
    ensures VersionGiven(c, w) == Int(n)
  {
    if Known(EnvelopeVersion) in w {
      var j := w[Known(EnvelopeVersion)];
      assert c.coerce(EnvelopeVersion, j) == Num(n);
    }
  }

  /** Whatever the parser accepts satisfies every constraint of the model at the supported version. */
  lemma ParsedIsValid(c: Codec, policy: SerdePolicy, w: Wire)
    requires Lawful(c) && Parse(c, policy, w).Ok?
    ensures ValidEnvelope(Parse(c, policy, w).value) && Parse(c, policy, w).value.envelopeVersion == SUPPORTED_VERSION
  {
    var traced := WithTracePolicy(c, policy.trace, w).value;
    ValidatedParts(c, traced);
    TracedReads(c, policy.trace, w);
    VersionsAgree(c, w, Validate(c, traced).value.envelopeVersion);
  }

  /** Preserved names win over an `unknown_fields` key; without either there is nothing unknown. */
  lemma ParsedUnknowns(c: Codec, w: Wire)
    requires Parse(c, CONSUMER_POLICY, w).Ok?
    ensures var u := Parse(c, CONSUMER_POLICY, w).value.unknownFields;
      if UnknownPart(w) != map[] then u == UnknownPart(w) else ReadUnknowns(c, w) == Got(u)
  {
    ValidatedParts(c, WithTracePolicy(c, Normalize, w).value);
    TracedReads(c, Normalize, w);
  }

  /** A dictionary is not among the values of the `unknown_fields` object it was read from. */
  lemma NoSelfContainment(c: Codec, w: Wire)
    requires Lawful(c) && Known(UnknownFields) in w && ReadUnknowns(c, w).Got?
    ensures w[Known(UnknownFields)] !in ReadUnknowns(c, w).value.Values
  {
    var j := w[Known(UnknownFields)];
    assert c.coerce(UnknownFields, j).Obj?;
    assert j.Obj? && KindFits(UnknownFields, j);
    var u := c.keyed(j.fields);
    forall k | k in u ensures u[k] != j {
      var s :| s in j.fields && j.fields[s] == u[k];
    }
  }

  /** A wire over a known dictionary and preserved names u gives back u only when u overlaps no known name. */
  lemma OverlapIsLostOnWire(c: Codec, w: Wire, u: Wire)
    requires Lawful(c) && UnknownPart(w) == UnknownPart(u)
    requires Entry(w, UnknownFields) == Entry(u, UnknownFields)
    requires Parse(c, CONSUMER_POLICY, w).Ok? && Parse(c, CONSUMER_POLICY, w).value.unknownFields == u
    ensures UnknownsAreUnknown(u)
  {
    ParsedUnknowns(c, w);
    if UnknownPart(u) == map[] && u != map[] {
      var key := Known(UnknownFields);
      assert key in w && key in u;
      NoSelfContainment(c, w);
    }
  }

  lemma EntryOfWire(c: Codec, e: EventEnvelope)
    ensures Entry(WireOf(c, e), UnknownFields) == Entry(e.unknownFields, UnknownFields)
  {
  }

  /** If an envelope comes back from its own wire form, none of its preserved names is a known one. */
  lemma OverlapIsLost(c: Codec, e: EventEnvelope)
    requires Lawful(c)
    ensures Parse(c, CONSUMER_POLICY, WireOf(c, e)) == Ok(FloorTimes(e)) ==> UnknownsAreUnknown(e.unknownFields)
  {
    UnknownPartOfWire(c, e);
    EntryOfWire(c, e);
    if Parse(c, CONSUMER_POLICY, WireOf(c, e)) == Ok(FloorTimes(e)) {
      OverlapIsLostOnWire(c, WireOf(c, e), e.unknownFields);
    }
  }

  /**
   Whoever wrote it, a consumer gets a valid envelope back -- timestamps cut to the millisecond -- exactly when no
   preserved field bears a known name. A strict producer never preserves any, so what it writes always comes back.
   */
  lemma RoundTrip(c: Codec, writer: SerdePolicy, e: EventEnvelope)
    requires Lawful(c) && ValidEnvelope(e) && PrintableTimes(e) && e.envelopeVersion == SUPPORTED_VERSION
    requires Serialize(c, writer, e).Ok?
    ensures Parse(c, CONSUMER_POLICY, Serialize(c, writer, e).value) == Ok(FloorTimes(e)) <==>
      UnknownsAreUnknown(e.unknownFields)
    ensures writer.unknown.RejectUnknown? ==> UnknownsAreUnknown(e.unknownFields)
  {
    if UnknownsAreUnknown(e.unknownFields) {
      ParseOfWire(c, e);
    } else if Parse(c, CONSUMER_POLICY, WireOf(c, e)) == Ok(FloorTimes(e)) {
      OverlapIsLost(c, e);
    }
  }

  lemma FloorIsInvisibleAt(c: Codec, e: EventEnvelope, f: Field)
    requires OptTime(Some(FloorMillis(e.occurredAt))) == OptTime(Some(e.occurredAt))
    requires OptTime(FloorTimes(e).publishedAt) == OptTime(e.publishedAt)
    ensures FieldJson(c, FloorTimes(e), f) == FieldJson(c, e, f)
  {
  }

  lemma SameFieldsSameWire(c: Codec, d: EventEnvelope, e: EventEnvelope)
    requires forall f: Field :: FieldJson(c, d, f) == FieldJson(c, e, f)
    requires d.unknownFields == e.unknownFields
    ensures WireOf(c, d) == WireOf(c, e)
  {
  }

  lemma FloorPrintsTheSame(other: string -> Option<DateTime>, t: Option<DateTime>)
    requires t.Some? ==> Valid(t.value) && t.value.year >= 1000
    ensures t.Some? ==> OptTime(Some(FloorMillis(t.value))) == OptTime(t)
  {
    if t.Some? {
      ParseOfFormat(other, t.value);
    }
  }

  lemma FloorIsInvisible(c: Codec, e: EventEnvelope)
    requires ValidEnvelope(e) && PrintableTimes(e)
    ensures WireOf(c, FloorTimes(e)) == WireOf(c, e)
  {
    FloorPrintsTheSame(c.otherTime, Some(e.occurredAt));
    FloorPrintsTheSame(c.otherTime, e.publishedAt);
    forall f: Field ensures FieldJson(c, FloorTimes(e), f) == FieldJson(c, e, f) {
      FloorIsInvisibleAt(c, e, f);
    }
    SameFieldsSameWire(c, FloorTimes(e), e);
  }

  /** A wire that reading and writing gives back. */
  predicate SettledWire(c: Codec, w: Wire) {
    Parse(c, CONSUMER_POLICY, w).Ok? && WireOf(c, Parse(c, CONSUMER_POLICY, w).value) == w
  }

  /**
   Reading and writing a wire once settles it, and doing so again changes nothing, unless an `unknown_fields` key is all
   it has beyond the known names.
   */
  lemma RewriteIsIdempotent(c: Codec, w: Wire)
    requires Lawful(c) && (Known(UnknownFields) in w ==> UnknownPart(w) != map[])
    ensures Parse(c, CONSUMER_POLICY, w).Ok? && PrintableTimes(Parse(c, CONSUMER_POLICY, w).value) ==>
      SettledWire(c, WireOf(c, Parse(c, CONSUMER_POLICY, w).value))
  {
    if Parse(c, CONSUMER_POLICY, w).Ok? && PrintableTimes(Parse(c, CONSUMER_POLICY, w).value) {
      var e := Parse(c, CONSUMER_POLICY, w).value;
      ParsedUnknowns(c, w);
      ParsedIsValid(c, CONSUMER_POLICY, w);
      assert UnknownsAreUnknown(e.unknownFields);
      ParseOfWire(c, e);
      FloorIsInvisible(c, e);
    }
  }
}
