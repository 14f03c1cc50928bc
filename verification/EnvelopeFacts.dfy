/**
 What a wire says and an envelope holds, name by name: reading takes every field from its own name, and so does
 writing.
 */
module EnvelopeFacts {
  import opened Wrappers
  import opened Json
  import opened Timestamps
  import opened Trace
  import opened Envelope

  // ---------------------------------------------------------------- what a wire says under a name

  /** No value: the name is missing, or says null. */
  predicate Omits(w: Wire, f: Field) {
    Known(f) !in w || w[Known(f)] == Null
  }

  predicate Says(c: Codec, w: Wire, f: Field, j: Json) {
    !Omits(w, f) && c.coerce(f, w[Known(f)]) == j
  }

  predicate SaysStr(c: Codec, w: Wire, f: Field, s: string) {
    Says(c, w, f, Str(s))
  }

  ghost predicate SaysUuid(c: Codec, w: Wire, f: Field, u: Uuid) {
    exists s :: SaysStr(c, w, f, s) && c.parseUuid(s) == Some(u)
  }

  ghost predicate SaysTime(c: Codec, w: Wire, f: Field, t: DateTime) {
    exists s :: SaysStr(c, w, f, s) && ParseUtc(c.otherTime, s) == Some(t)
  }

  ghost predicate OptSaysStr(c: Codec, w: Wire, f: Field, o: Option<string>) {
    if o.None? then Omits(w, f) else SaysStr(c, w, f, o.value)
  }

  ghost predicate OptSaysUuid(c: Codec, w: Wire, f: Field, o: Option<Uuid>) {
    if o.None? then Omits(w, f) else SaysUuid(c, w, f, o.value)
  }

  ghost predicate OptSaysTime(c: Codec, w: Wire, f: Field, o: Option<DateTime>) {
    if o.None? then Omits(w, f) else SaysTime(c, w, f, o.value)
  }

  predicate SaysKind(c: Codec, w: Wire, k: MessageKind) {
    match k
    case Domain => SaysStr(c, w, Kind, "domain")
    case Integration => SaysStr(c, w, Kind, "integration")
    case Command => SaysStr(c, w, Kind, "command")
    case Reply => SaysStr(c, w, Kind, "reply")
    case Projection => SaysStr(c, w, Kind, "projection")
  }

  predicate SaysScope(c: Codec, w: Wire, s: AggregateScope) {
    match s
    case Aggregate => SaysStr(c, w, Scope, "aggregate")
    case NonAggregate => SaysStr(c, w, Scope, "non_aggregate")
  }

  predicate SaysClassification(c: Codec, w: Wire, d: DataClassification) {
    match d
    case Public => SaysStr(c, w, Classification, "public")
    case Internal => SaysStr(c, w, Classification, "internal")
    case Confidential => SaysStr(c, w, Classification, "confidential")
    case Restricted => SaysStr(c, w, Classification, "restricted")
  }

  /** One media reference: three texts within their lengths, perhaps a content type, and no other key. */
  predicate SaysRef(j: Json, r: MediaRef) {
    && j.Obj? && (forall k :: k in j.fields ==> k in ["ref_type", "bucket", "key", "content_type"])
    && "ref_type" in j.fields && j.fields["ref_type"] == Str(r.refType) && 1 <= |r.refType| <= 32
    && "bucket" in j.fields && j.fields["bucket"] == Str(r.bucket) && 1 <= |r.bucket| <= 256
    && "key" in j.fields && j.fields["key"] == Str(r.key) && 1 <= |r.key| <= 1024
    && (r.contentType.None? ==> "content_type" !in j.fields || j.fields["content_type"] == Null)
    && (r.contentType.Some? ==>
          && "content_type" in j.fields && j.fields["content_type"] == Str(r.contentType.value)
          && |r.contentType.value| <= 128)
  }

  ghost predicate OptSaysRefs(c: Codec, w: Wire, o: Option<seq<MediaRef>>) {
    if o.None? then Omits(w, MediaRefs)
    else
      exists items :: Says(c, w, MediaRefs, Arr(items)) && |items| == |o.value|
        && forall i :: 0 <= i < |items| ==> SaysRef(items[i], o.value[i])
  }

  // ---------------------------------------------------------------- an envelope as a wire states it

  /** Version, identifiers and type. */
  ghost predicate StatesIdentity(c: Codec, w: Wire, e: EventEnvelope) {
    && (Known(EnvelopeVersion) in w ==> Says(c, w, EnvelopeVersion, Num(e.envelopeVersion)))
    && (Known(EnvelopeVersion) !in w ==> e.envelopeVersion == 1)
    && SaysUuid(c, w, EventId, e.eventId) && SaysUuid(c, w, CorrelationId, e.correlationId)
    && OptSaysUuid(c, w, CausationId, e.causationId) && OptSaysUuid(c, w, TenantId, e.tenantId)
    && OptSaysUuid(c, w, OrganizationId, e.organizationId)
  }

  /** What happened, when, and to what. */
  ghost predicate StatesEvent(c: Codec, w: Wire, e: EventEnvelope) {
    && SaysStr(c, w, EventType, e.eventType) && Says(c, w, EventVersion, Num(e.eventVersion))
    && SaysTime(c, w, OccurredAt, e.occurredAt) && OptSaysTime(c, w, PublishedAt, e.publishedAt)
    && SaysStr(c, w, Producer, e.producer) && SaysKind(c, w, e.messageKind)
    && SaysScope(c, w, e.aggregateScope) && OptSaysStr(c, w, AggregateType, e.aggregateType)
    && OptSaysUuid(c, w, AggregateId, e.aggregateId)
    && (if e.aggregateVersion.None? then Omits(w, AggregateVersion)
        else Says(c, w, AggregateVersion, Num(e.aggregateVersion.value)))
  }

  /** What it carries. */
  ghost predicate StatesContent(c: Codec, w: Wire, e: EventEnvelope) {
    && SaysClassification(c, w, e.dataClassification) && Says(c, w, PiiPresent, Bool(e.piiPresent))
    && OptSaysStr(c, w, SchemaUri, e.schemaUri) && Says(c, w, Payload, Obj(e.payload))
    && (if e.metadata.None? then Omits(w, Metadata) else Says(c, w, Metadata, Obj(e.metadata.value)))
    && OptSaysRefs(c, w, e.mediaRefs) && OptSaysStr(c, w, Tracestate, e.tracestate)
  }

  /** The traceparent of a wire that went through the trace policy. */
  ghost predicate StatesTraceparent(c: Codec, w: Wire, e: EventEnvelope) {
    if e.traceparent.None? then Omits(w, Traceparent)
    else exists s :: SaysStr(c, w, Traceparent, s) && NormalizeTraceparent(s) == e.traceparent
  }

  // ---------------------------------------------------------------- each reader reads what its name says

  lemma StrRead(c: Codec, w: Wire, f: Field)
    ensures forall s :: ReadStr(c, w, f) == Got(s) <==> SaysStr(c, w, f, s)
    ensures ReadStr(c, w, f).Absent? <==> Omits(w, f)
  {
  }

  lemma IntReadExactly(c: Codec, w: Wire, f: Field)
    ensures forall n :: ReadInt(c, w, f) == Got(n) <==> Says(c, w, f, Num(n))
    ensures ReadInt(c, w, f).Absent? <==> Omits(w, f)
  {
  }

  lemma ObjRead(c: Codec, w: Wire, f: Field)
    ensures forall m :: ReadObj(c, w, f) == Got(m) <==> Says(c, w, f, Obj(m))
    ensures ReadObj(c, w, f).Absent? <==> Omits(w, f)
  {
  }

  lemma UuidRead(c: Codec, w: Wire, f: Field)
    ensures forall u :: ReadUuid(c, w, f) == Got(u) <==> SaysUuid(c, w, f, u)
    ensures ReadUuid(c, w, f).Absent? <==> Omits(w, f)
  {
    StrRead(c, w, f);
    if ReadStr(c, w, f).Got? {
      assert SaysStr(c, w, f, ReadStr(c, w, f).value);
    }
  }

  lemma TimeRead(c: Codec, w: Wire, f: Field)
    ensures forall t :: ReadTime(c, w, f) == Got(t) <==> SaysTime(c, w, f, t)
    ensures ReadTime(c, w, f).Absent? <==> Omits(w, f)
  {
    StrRead(c, w, f);
    if ReadStr(c, w, f).Got? {
      assert SaysStr(c, w, f, ReadStr(c, w, f).value);
    }
  }

  /** What an optional field comes to: a bad value stops the reading. */
  predicate Comes<T(==)>(r: Read<T>, o: Option<T>) {
    if o.None? then r.Absent? else r == Got(o.value)
  }

  lemma OptStrRead(c: Codec, w: Wire, f: Field, o: Option<string>)
    ensures Comes(ReadStr(c, w, f), o) <==> OptSaysStr(c, w, f, o)
  {
    StrRead(c, w, f);
  }

  lemma OptUuidRead(c: Codec, w: Wire, f: Field, o: Option<Uuid>)
    ensures Comes(ReadUuid(c, w, f), o) <==> OptSaysUuid(c, w, f, o)
  {
    UuidRead(c, w, f);
  }

  lemma OptTimeRead(c: Codec, w: Wire, f: Field, o: Option<DateTime>)
    ensures Comes(ReadTime(c, w, f), o) <==> OptSaysTime(c, w, f, o)
  {
    TimeRead(c, w, f);
  }

  lemma KindRead(c: Codec, w: Wire, k: MessageKind)
    ensures Enumerated(ReadStr(c, w, Kind), KindOf) == Got(k) <==> SaysKind(c, w, k)
  {
    StrRead(c, w, Kind);
  }

  lemma ScopeRead(c: Codec, w: Wire, s: AggregateScope)
    ensures Enumerated(ReadStr(c, w, Scope), ScopeOf) == Got(s) <==> SaysScope(c, w, s)
  {
    StrRead(c, w, Scope);
  }

  lemma ClassificationRead(c: Codec, w: Wire, d: DataClassification)
    ensures Enumerated(ReadStr(c, w, Classification), ClassificationOf) == Got(d) <==> SaysClassification(c, w, d)
  {
    StrRead(c, w, Classification);
  }

  lemma RefRead(j: Json, r: MediaRef)
    ensures ParseRef(j) == Some(r) <==> SaysRef(j, r)
  {
    if j.Obj? {
      assert j.fields.Keys <= {"ref_type", "bucket", "key", "content_type"} <==>
        forall k :: k in j.fields ==> k in ["ref_type", "bucket", "key", "content_type"];
    }
  }

  lemma {:induction false} RefsRead(items: seq<Json>, refs: seq<MediaRef>)
    ensures ParseRefs(items) == Some(refs) <==>
      |items| == |refs| && forall i :: 0 <= i < |items| ==> SaysRef(items[i], refs[i])
  {
    if items != [] && refs != [] {
      RefRead(items[0], refs[0]);
      RefsRead(items[1..], refs[1..]);
      assert refs == [refs[0]] + refs[1..];
      if ParseRefs(items) == Some(refs) {
        assert ParseRefs(items[1..]).value == refs[1..];
      }
      if |items| == |refs| && forall i :: 0 <= i < |items| ==> SaysRef(items[i], refs[i]) {
        assert forall i :: 0 <= i < |items| - 1 ==> SaysRef(items[1..][i], refs[1..][i]);
      }
    }
  }

  lemma MediaRefsRead(c: Codec, w: Wire, o: Option<seq<MediaRef>>)
    ensures Comes(ReadRefs(c, w), o) <==> OptSaysRefs(c, w, o)
  {
    if o.Some? && !Omits(w, MediaRefs) && c.coerce(MediaRefs, w[Known(MediaRefs)]).Arr? {
      var items := c.coerce(MediaRefs, w[Known(MediaRefs)]).items;
      assert Says(c, w, MediaRefs, Arr(items));
      RefsRead(items, o.value);
    }
  }

  lemma TraceparentRead(c: Codec, w: Wire, e: EventEnvelope)
    ensures Comes(ReadTraceparent(c, w), e.traceparent) <==> StatesTraceparent(c, w, e)
  {
    StrRead(c, w, Traceparent);
    if ReadStr(c, w, Traceparent).Got? {
      assert SaysStr(c, w, Traceparent, ReadStr(c, w, Traceparent).value);
    }
  }

  /** The preserved names of a wire that names `unknown_fields` itself. */
  ghost predicate StatesUnknowns(c: Codec, w: Wire, u: Wire) {
    if Known(UnknownFields) !in w then u == map[]
    else
      var j := c.coerce(UnknownFields, w[Known(UnknownFields)]);
      j.Obj? && c.keyed(j.fields) == u
  }

  lemma UnknownsRead(c: Codec, w: Wire, u: Wire)
    ensures ReadUnknowns(c, w) == Got(u) <==> StatesUnknowns(c, w, u)
  {
  }

  lemma VersionRead(c: Codec, w: Wire, n: int)
    ensures ReadVersion(c, w) == Got(n) <==>
      if Known(EnvelopeVersion) in w then Says(c, w, EnvelopeVersion, Num(n)) else n == 1
  {
    IntReadExactly(c, w, EnvelopeVersion);
  }

  // ---------------------------------------------------------------- all fields together

  /** The fields read are those of the envelope. */
  predicate IdentityComes(r: Reads, e: EventEnvelope) {
    && r.version == Got(e.envelopeVersion) && r.eventId == Got(e.eventId) && r.correlationId == Got(e.correlationId)
    && Comes(r.causationId, e.causationId) && Comes(r.tenantId, e.tenantId)
    && Comes(r.organizationId, e.organizationId)
  }

  predicate EventComes(r: Reads, e: EventEnvelope) {
    && r.eventType == Got(e.eventType) && r.eventVersion == Got(e.eventVersion) && r.occurredAt == Got(e.occurredAt)
    && Comes(r.publishedAt, e.publishedAt) && r.producer == Got(e.producer) && r.kind == Got(e.messageKind)
    && r.scope == Got(e.aggregateScope) && Comes(r.aggregateType, e.aggregateType)
    && Comes(r.aggregateId, e.aggregateId) && Comes(r.aggregateVersion, e.aggregateVersion)
  }

  predicate ContentComes(r: Reads, e: EventEnvelope) {
    && r.classification == Got(e.dataClassification) && r.pii == Got(e.piiPresent) && Comes(r.schemaUri, e.schemaUri)
    && r.payload == Got(e.payload) && Comes(r.metadata, e.metadata) && Comes(r.mediaRefs, e.mediaRefs)
    && Comes(r.tracestate, e.tracestate)
  }

  predicate AllCome(r: Reads, e: EventEnvelope) {
    && IdentityComes(r, e) && EventComes(r, e) && ContentComes(r, e)
    && Comes(r.traceparent, e.traceparent) && r.unknowns == Got(e.unknownFields)
  }

  lemma AssembledCome(r: Reads)
    requires r.Assemble().Some?
    ensures AllCome(r, r.Assemble().value) && ValidEnvelope(r.Assemble().value)
  {
  }

  lemma ComeAssembled(r: Reads, e: EventEnvelope)
    requires AllCome(r, e) && ValidEnvelope(e)
    ensures r.Assemble() == Some(e)
  {
    ComeBuilt(r, e);
  }

  lemma ComeBuilt(r: Reads, e: EventEnvelope)
    requires AllCome(r, e)
    ensures r.RequiredGot() && !r.OptionalBad() && r.Built() == e
  {
    RequiredCome(r, e);
    OptionsCome(r, e);
    BuiltIs(r, e);
  }

  lemma ComesAsOption<T>(r: Read<T>, o: Option<T>)
    requires Comes(r, o)
    ensures !r.Bad? && AsOption(r) == o
  {
  }

  predicate RequiredAre(r: Reads, e: EventEnvelope) {
    && r.RequiredGot() && r.version.value == e.envelopeVersion && r.eventId.value == e.eventId
    && r.eventType.value == e.eventType && r.eventVersion.value == e.eventVersion
    && r.occurredAt.value == e.occurredAt && r.producer.value == e.producer && r.kind.value == e.messageKind
    && r.scope.value == e.aggregateScope && r.correlationId.value == e.correlationId
    && r.classification.value == e.dataClassification && r.pii.value == e.piiPresent && r.payload.value == e.payload
    && r.unknowns.value == e.unknownFields
  }

  predicate OptionsAre(r: Reads, e: EventEnvelope) {
    && !r.OptionalBad() && AsOption(r.publishedAt) == e.publishedAt && AsOption(r.aggregateType) == e.aggregateType
    && AsOption(r.aggregateId) == e.aggregateId && AsOption(r.aggregateVersion) == e.aggregateVersion
    && AsOption(r.causationId) == e.causationId && AsOption(r.traceparent) == e.traceparent
    && AsOption(r.tracestate) == e.tracestate && AsOption(r.tenantId) == e.tenantId
    && AsOption(r.organizationId) == e.organizationId && AsOption(r.schemaUri) == e.schemaUri
    && AsOption(r.metadata) == e.metadata && AsOption(r.mediaRefs) == e.mediaRefs
  }

  lemma RequiredCome(r: Reads, e: EventEnvelope)
    requires AllCome(r, e)
    ensures RequiredAre(r, e)
  {
  }

  lemma OptionsCome(r: Reads, e: EventEnvelope)
    requires AllCome(r, e)
    ensures OptionsAre(r, e)
  {
    ComesAsOption(r.publishedAt, e.publishedAt);
    ComesAsOption(r.aggregateType, e.aggregateType);
    ComesAsOption(r.aggregateId, e.aggregateId);
    ComesAsOption(r.aggregateVersion, e.aggregateVersion);
    ComesAsOption(r.causationId, e.causationId);
    ComesAsOption(r.traceparent, e.traceparent);
    ComesAsOption(r.tracestate, e.tracestate);
    ComesAsOption(r.tenantId, e.tenantId);
    ComesAsOption(r.organizationId, e.organizationId);
    ComesAsOption(r.schemaUri, e.schemaUri);
    ComesAsOption(r.metadata, e.metadata);
    ComesAsOption(r.mediaRefs, e.mediaRefs);
  }

  lemma BuiltIs(r: Reads, e: EventEnvelope)
    requires RequiredAre(r, e) && OptionsAre(r, e)
    ensures r.Built() == e
  {
  }

  lemma IdentityRead(c: Codec, w: Wire, e: EventEnvelope)
    ensures IdentityComes(ReadAll(c, w), e) <==> StatesIdentity(c, w, e)
  {
    VersionRead(c, w, e.envelopeVersion);
    UuidRead(c, w, EventId);
    UuidRead(c, w, CorrelationId);
    OptUuidRead(c, w, CausationId, e.causationId);
    OptUuidRead(c, w, TenantId, e.tenantId);
    OptUuidRead(c, w, OrganizationId, e.organizationId);
  }

  lemma EventRead(c: Codec, w: Wire, e: EventEnvelope)
    ensures EventComes(ReadAll(c, w), e) <==> StatesEvent(c, w, e)
  {
    StrRead(c, w, EventType);
    IntReadExactly(c, w, EventVersion);
    TimeRead(c, w, OccurredAt);
    OptTimeRead(c, w, PublishedAt, e.publishedAt);
    StrRead(c, w, Producer);
    KindRead(c, w, e.messageKind);
    ScopeRead(c, w, e.aggregateScope);
    OptStrRead(c, w, AggregateType, e.aggregateType);
    OptUuidRead(c, w, AggregateId, e.aggregateId);
    IntReadExactly(c, w, AggregateVersion);
  }

  lemma ContentRead(c: Codec, w: Wire, e: EventEnvelope)
    ensures ContentComes(ReadAll(c, w), e) <==> StatesContent(c, w, e)
  {
    ClassificationRead(c, w, e.dataClassification);
    BoolRead(c, w, PiiPresent);
    OptStrRead(c, w, SchemaUri, e.schemaUri);
    ObjRead(c, w, Payload);
    ObjRead(c, w, Metadata);
    MediaRefsRead(c, w, e.mediaRefs);
    OptStrRead(c, w, Tracestate, e.tracestate);
  }

  lemma BoolRead(c: Codec, w: Wire, f: Field)
    ensures forall b :: ReadBool(c, w, f) == Got(b) <==> Says(c, w, f, Bool(b))
  {
  }

  lemma ValidateExactly(c: Codec, w: Wire, e: EventEnvelope)
    ensures Validate(c, w) == Some(e) <==>
      && StatesIdentity(c, w, e) && StatesEvent(c, w, e) && StatesContent(c, w, e) && StatesTraceparent(c, w, e)
      && StatesUnknowns(c, w, e.unknownFields) && ValidEnvelope(e)
  {
    IdentityRead(c, w, e);
    EventRead(c, w, e);
    ContentRead(c, w, e);
    TraceparentRead(c, w, e);
    UnknownsRead(c, w, e.unknownFields);
    if Validate(c, w) == Some(e) {
      AssembledCome(ReadAll(c, w));
    } else if AllCome(ReadAll(c, w), e) && ValidEnvelope(e) {
      ComeAssembled(ReadAll(c, w), e);
    }
  }

  // ---------------------------------------------------------------- the parser

  predicate IsVersionOne(c: Codec, w: Wire) {
    Known(EnvelopeVersion) !in w || (!Omits(w, EnvelopeVersion) && c.toInt(w[Known(EnvelopeVersion)]) == Int(1))
  }

  predicate NamesUnknown(w: Wire) {
    exists k :: k in w && k.Unknown?
  }

  /** What the trace policy lets through, normalized once more by the model. */
  ghost predicate StatesTrace(c: Codec, policy: TraceContextPolicy, w: Wire, e: EventEnvelope) {
    if Omits(w, Traceparent) then e.traceparent.None?
    else
      match ApplyPolicy(c.toText(w[Known(Traceparent)]), policy)
      case None => false
      case Some(None) => e.traceparent.None?
      case Some(Some(t)) => e.traceparent.Some? && NormalizeTraceparent(t) == e.traceparent
  }

  /** Unknown names are preserved with what they say, and then an `unknown_fields` key only has to be readable. */
  ghost predicate Preserves(c: Codec, policy: UnknownFieldPolicy, w: Wire, u: Wire) {
    if policy.PreserveUnknown? && NamesUnknown(w) then
      && (forall k :: k in u <==> k in w && k.Unknown?) && (forall k :: k in u ==> u[k] == w[k])
      && exists own :: StatesUnknowns(c, w, own)
    else StatesUnknowns(c, w, u)
  }

  /** The envelope a wire is admitted as, condition by condition. */
  ghost predicate Admits(c: Codec, policy: SerdePolicy, w: Wire, e: EventEnvelope) {
    && IsVersionOne(c, w) && (policy.unknown.RejectUnknown? ==> !NamesUnknown(w))
    && StatesFields(c, policy.trace, w, e) && Preserves(c, policy.unknown, w, e.unknownFields)
  }

  /** Every known field is what the wire says under its name, and the envelope they make is valid. */
  ghost predicate StatesFields(c: Codec, policy: TraceContextPolicy, w: Wire, e: EventEnvelope) {
    && StatesIdentity(c, w, e) && StatesEvent(c, w, e) && StatesContent(c, w, e) && StatesTrace(c, policy, w, e)
    && IsWithinLimits(e)
  }

  /** The limits on an envelope's fields, and which of its aggregate's it names. */
  predicate IsWithinLimits(e: EventEnvelope) {
    && e.envelopeVersion >= 1 && e.eventVersion >= 1 && 1 <= |e.eventType| <= 128 && 1 <= |e.producer| <= 64
    && Timestamps.Valid(e.occurredAt) && (e.publishedAt.Some? ==> Timestamps.Valid(e.publishedAt.value))
    && (e.traceparent.Some? ==> Trace.IsCanonical(e.traceparent.value))
    && (e.mediaRefs.Some? ==> forall r :: r in e.mediaRefs.value ==> IsRefWithinLimits(r))
    && (if e.aggregateScope == Aggregate then
          && e.aggregateType.Some? && 1 <= |e.aggregateType.value| <= 64 && e.aggregateId.Some?
          && (e.aggregateVersion.None? ==> e.messageKind == Reply)
          && (e.aggregateVersion.Some? ==> e.aggregateVersion.value >= 0)
        else e.aggregateType.None? && e.aggregateId.None? && e.aggregateVersion.None?)
  }

  predicate IsRefWithinLimits(r: MediaRef) {
    && 1 <= |r.refType| <= 32 && 1 <= |r.bucket| <= 256 && 1 <= |r.key| <= 1024
    && (r.contentType.Some? ==> |r.contentType.value| <= 128)
  }

  lemma ValidMeans(e: EventEnvelope)
    ensures ValidEnvelope(e) <==> IsWithinLimits(e)
  {
    if e.mediaRefs.Some? {
      var refs := e.mediaRefs.value;
      forall r ensures ValidMediaRef(r) <==> IsRefWithinLimits(r) {
      }
      assert (forall i :: 0 <= i < |refs| ==> ValidMediaRef(refs[i])) <==>
        forall r :: r in refs ==> IsRefWithinLimits(r);
    }
  }

  lemma RawApart(c: Codec, w: Wire, o: Option<string>, f: Field)
    requires f != Traceparent
    ensures Raw(c, WithTraceparent(w, o), f) == Raw(c, w, f)
  {
  }

  lemma StrApart(c: Codec, w: Wire, o: Option<string>, f: Field)
    requires f != Traceparent
    ensures ReadStr(c, WithTraceparent(w, o), f) == ReadStr(c, w, f)
  {
    RawApart(c, w, o, f);
  }

  lemma UuidApart(c: Codec, w: Wire, o: Option<string>, f: Field)
    requires f != Traceparent
    ensures ReadUuid(c, WithTraceparent(w, o), f) == ReadUuid(c, w, f)
  {
    StrApart(c, w, o, f);
  }

  lemma TimeApart(c: Codec, w: Wire, o: Option<string>, f: Field)
    requires f != Traceparent
    ensures ReadTime(c, WithTraceparent(w, o), f) == ReadTime(c, w, f)
  {
    StrApart(c, w, o, f);
  }

  lemma ValueApart(c: Codec, w: Wire, o: Option<string>, f: Field)
    requires f != Traceparent
    ensures ReadInt(c, WithTraceparent(w, o), f) == ReadInt(c, w, f)
    ensures ReadObj(c, WithTraceparent(w, o), f) == ReadObj(c, w, f)
    ensures ReadBool(c, WithTraceparent(w, o), f) == ReadBool(c, w, f)
  {
    RawApart(c, w, o, f);
  }

  lemma RefsApart(c: Codec, w: Wire, o: Option<string>)
    ensures ReadRefs(c, WithTraceparent(w, o)) == ReadRefs(c, w)
  {
    RawApart(c, w, o, MediaRefs);
  }

  lemma IdentityApart(c: Codec, w: Wire, o: Option<string>, e: EventEnvelope)
    ensures IdentityComes(ReadAll(c, WithTraceparent(w, o)), e) <==> IdentityComes(ReadAll(c, w), e)
  {
    TraceparentIsOneKey(c, w, o);
    UuidApart(c, w, o, EventId);
    UuidApart(c, w, o, CorrelationId);
    UuidApart(c, w, o, CausationId);
    UuidApart(c, w, o, TenantId);
    UuidApart(c, w, o, OrganizationId);
  }

  lemma EventApart(c: Codec, w: Wire, o: Option<string>, e: EventEnvelope)
    ensures EventComes(ReadAll(c, WithTraceparent(w, o)), e) <==> EventComes(ReadAll(c, w), e)
  {
    StrApart(c, w, o, EventType);
    ValueApart(c, w, o, EventVersion);
    TimeApart(c, w, o, OccurredAt);
    TimeApart(c, w, o, PublishedAt);
    StrApart(c, w, o, Producer);
    StrApart(c, w, o, Kind);
    StrApart(c, w, o, Scope);
    StrApart(c, w, o, AggregateType);
    UuidApart(c, w, o, AggregateId);
    ValueApart(c, w, o, AggregateVersion);
  }

  lemma ContentApart(c: Codec, w: Wire, o: Option<string>, e: EventEnvelope)
    ensures ContentComes(ReadAll(c, WithTraceparent(w, o)), e) <==> ContentComes(ReadAll(c, w), e)
  {
    StrApart(c, w, o, Classification);
    ValueApart(c, w, o, PiiPresent);
    StrApart(c, w, o, SchemaUri);
    ValueApart(c, w, o, Payload);
    ValueApart(c, w, o, Metadata);
    RefsApart(c, w, o);
    StrApart(c, w, o, Tracestate);
  }

  lemma TracedStates(c: Codec, policy: TraceContextPolicy, w: Wire, e: EventEnvelope)
    requires Lawful(c) && WithTracePolicy(c, policy, w).Some?
    ensures StatesTraceparent(c, WithTracePolicy(c, policy, w).value, e) <==> StatesTrace(c, policy, w, e)
  {
    var t := WithTracePolicy(c, policy, w).value;
    if !Omits(w, Traceparent) {
      var applied := ApplyPolicy(c.toText(w[Known(Traceparent)]), policy).value;
      assert t == WithTraceparent(w, applied);
      if applied.Some? {
        assert KindFits(Traceparent, Str(applied.value));
        assert c.coerce(Traceparent, Str(applied.value)) == Str(applied.value);
        assert SaysStr(c, t, Traceparent, applied.value);
      }
    }
  }

  lemma TracedOthers(c: Codec, policy: TraceContextPolicy, w: Wire, e: EventEnvelope)
    requires WithTracePolicy(c, policy, w).Some?
    ensures var t := WithTracePolicy(c, policy, w).value;
      && (StatesIdentity(c, t, e) <==> StatesIdentity(c, w, e)) && (StatesEvent(c, t, e) <==> StatesEvent(c, w, e))
      && (StatesContent(c, t, e) <==> StatesContent(c, w, e))
      && (StatesUnknowns(c, t, e.unknownFields) <==> StatesUnknowns(c, w, e.unknownFields))
  {
    if !Omits(w, Traceparent) {
      var o := ApplyPolicy(c.toText(w[Known(Traceparent)]), policy).value;
      StatesApart(c, w, o, e);
      TraceparentIsOneKey(c, w, o);
      UnknownsRead(c, w, e.unknownFields);
      UnknownsRead(c, WithTraceparent(w, o), e.unknownFields);
    }
  }

  lemma StatesApart(c: Codec, w: Wire, o: Option<string>, e: EventEnvelope)
    ensures var t := WithTraceparent(w, o);
      && (StatesIdentity(c, t, e) <==> StatesIdentity(c, w, e)) && (StatesEvent(c, t, e) <==> StatesEvent(c, w, e))
      && (StatesContent(c, t, e) <==> StatesContent(c, w, e))
  {
    var t := WithTraceparent(w, o);
    IdentityApart(c, w, o, e);
    IdentityRead(c, t, e);
    IdentityRead(c, w, e);
    EventApart(c, w, o, e);
    EventRead(c, t, e);
    EventRead(c, w, e);
    ContentApart(c, w, o, e);
    ContentRead(c, t, e);
    ContentRead(c, w, e);
  }

  /** The model's part of the parser, on the wire as it came. */
  ghost predicate StatesAll(c: Codec, policy: TraceContextPolicy, w: Wire, e: EventEnvelope) {
    StatesFields(c, policy, w, e) && StatesUnknowns(c, w, e.unknownFields)
  }

  lemma TracedValidates(c: Codec, policy: TraceContextPolicy, w: Wire, e: EventEnvelope)
    requires Lawful(c)
    ensures WithTracePolicy(c, policy, w).None? ==> !StatesTrace(c, policy, w, e)
    ensures WithTracePolicy(c, policy, w).Some? ==>
      (Validate(c, WithTracePolicy(c, policy, w).value) == Some(e) <==> StatesAll(c, policy, w, e))
  {
    if WithTracePolicy(c, policy, w).Some? {
      TracedStates(c, policy, w, e);
      TracedOthers(c, policy, w, e);
      ValidMeans(e);
      ValidateExactly(c, WithTracePolicy(c, policy, w).value, e);
    }
  }

  lemma UnknownPartIs(w: Wire, u: Wire)
    ensures UnknownPart(w) != map[] <==> NamesUnknown(w)
    ensures u == UnknownPart(w) <==>
      (forall k :: k in u <==> k in w && k.Unknown?) && (forall k :: k in u ==> u[k] == w[k])
  {
    if NamesUnknown(w) {
      var k :| k in w && k.Unknown?;
      assert k in UnknownPart(w);
    }
    if UnknownPart(w) != map[] {
      var k :| k in UnknownPart(w);
    }
  }

  /** Everything but the preserved names is as the model has it. */
  lemma OtherThanUnknowns(c: Codec, policy: TraceContextPolicy, w: Wire, e: EventEnvelope, own: Wire)
    ensures StatesFields(c, policy, w, e.(unknownFields := own)) <==> StatesFields(c, policy, w, e)
  {
    IdentityOther(c, w, e, own);
    EventOther(c, w, e, own);
    ContentOther(c, w, e, own);
    SameValidity(e, own);
  }

  lemma IdentityOther(c: Codec, w: Wire, e: EventEnvelope, own: Wire)
    ensures StatesIdentity(c, w, e.(unknownFields := own)) <==> StatesIdentity(c, w, e)
  {
    IdentityRead(c, w, e.(unknownFields := own));
    IdentityRead(c, w, e);
  }

  lemma EventOther(c: Codec, w: Wire, e: EventEnvelope, own: Wire)
    ensures StatesEvent(c, w, e.(unknownFields := own)) <==> StatesEvent(c, w, e)
  {
    EventRead(c, w, e.(unknownFields := own));
    EventRead(c, w, e);
  }

  lemma ContentOther(c: Codec, w: Wire, e: EventEnvelope, own: Wire)
    ensures StatesContent(c, w, e.(unknownFields := own)) <==> StatesContent(c, w, e)
  {
    ContentRead(c, w, e.(unknownFields := own));
    ContentRead(c, w, e);
  }

  lemma SameValidity(e: EventEnvelope, own: Wire)
    ensures IsWithinLimits(e.(unknownFields := own)) <==> IsWithinLimits(e)
  {
  }

  lemma VersionIsOne(c: Codec, w: Wire)
    ensures VersionGiven(c, w) == Int(1) <==> IsVersionOne(c, w)
  {
  }

  /** The parser step by step, as one condition. */
  lemma ParseOkMeans(c: Codec, policy: SerdePolicy, w: Wire, e: EventEnvelope)
    ensures Parse(c, policy, w) == Ok(e) <==>
      && VersionGiven(c, w) == Int(1) && (policy.unknown.RejectUnknown? ==> UnknownPart(w) == map[])
      && WithTracePolicy(c, policy.trace, w).Some?
      && var validated := Validate(c, WithTracePolicy(c, policy.trace, w).value);
         validated.Some? && e == WithPreserved(policy.unknown, UnknownPart(w), validated.value)
  {
  }

  function WithPreserved(policy: UnknownFieldPolicy, unknown: Wire, e: EventEnvelope): EventEnvelope {
    if policy.PreserveUnknown? && unknown != map[] then e.(unknownFields := unknown) else e
  }

  lemma PreservesMeans(c: Codec, w: Wire, u: Wire)
    requires NamesUnknown(w)
    ensures Preserves(c, PreserveUnknown, w, u) <==> u == UnknownPart(w) && exists own :: StatesUnknowns(c, w, own)
  {
    UnknownPartIs(w, u);
  }

  lemma FieldsWithSome(c: Codec, policy: TraceContextPolicy, w: Wire, e: EventEnvelope)
    ensures (exists own :: StatesAll(c, policy, w, e.(unknownFields := own))) <==>
      StatesFields(c, policy, w, e) && exists own :: StatesUnknowns(c, w, own)
  {
    forall own ensures StatesFields(c, policy, w, e.(unknownFields := own)) <==> StatesFields(c, policy, w, e) {
      OtherThanUnknowns(c, policy, w, e, own);
    }
    if own :| StatesUnknowns(c, w, own) && StatesFields(c, policy, w, e) {
      assert StatesAll(c, policy, w, e.(unknownFields := own));
    }
  }

  lemma PreservedParse(c: Codec, policy: TraceContextPolicy, w: Wire, e: EventEnvelope)
    requires Lawful(c) && NamesUnknown(w)
    ensures Parse(c, SerdePolicy(PreserveUnknown, policy), w) == Ok(e) <==>
      && IsVersionOne(c, w) && e.unknownFields == UnknownPart(w)
      && exists own :: StatesAll(c, policy, w, e.(unknownFields := own))
  {
    VersionIsOne(c, w);
    UnknownPartIs(w, map[]);
    ParseOkMeans(c, SerdePolicy(PreserveUnknown, policy), w, e);
    var traced := WithTracePolicy(c, policy, w);
    if traced.Some? && Validate(c, traced.value).Some? {
      var d := Validate(c, traced.value).value;
      TracedValidates(c, policy, w, d);
      assert e == d.(unknownFields := UnknownPart(w)) ==> e.(unknownFields := d.unknownFields) == d;
    }
    if own :| StatesAll(c, policy, w, e.(unknownFields := own)) {
      TracedValidates(c, policy, w, e.(unknownFields := own));
    }
  }

  /**
   Reading, exactly: a wire is accepted as an envelope if and only if the version is one, unknown names are allowed, and
   every field of the envelope is what the wire says under that field's own name.
   */
  lemma ParsedExactly(c: Codec, policy: SerdePolicy, w: Wire, e: EventEnvelope)
    requires Lawful(c)
    ensures Parse(c, policy, w) == Ok(e) <==> Admits(c, policy, w, e)
  {
    if policy.unknown.PreserveUnknown? && NamesUnknown(w) {
      PreservedParse(c, policy.trace, w, e);
      FieldsWithSome(c, policy.trace, w, e);
      PreservesMeans(c, w, e.unknownFields);
    } else {
      VersionIsOne(c, w);
      UnknownPartIs(w, map[]);
      ParseOkMeans(c, policy, w, e);
      TracedValidates(c, policy.trace, w, e);
    }
  }

  /** Refusing, exactly: what is wrong with the wire, the first that applies. */
  lemma RefusedExactly(c: Codec, policy: SerdePolicy, w: Wire)
    requires Lawful(c) && Parse(c, policy, w).Err?
    ensures match Parse(c, policy, w).error
      case IntOverflow => Known(EnvelopeVersion) in w && IsInfinite(w[Known(EnvelopeVersion)])
      case UnsupportedVersion(n) =>
        n != 1 && !Omits(w, EnvelopeVersion) && c.toInt(w[Known(EnvelopeVersion)]) == Int(n)
      case UnknownFieldsRejected => IsVersionOne(c, w) && policy.unknown.RejectUnknown? && NamesUnknown(w)
      case InvalidTraceparent =>
        && IsVersionOne(c, w) && policy.trace.Reject? && !Omits(w, Traceparent)
        && NormalizeTraceparent(c.toText(w[Known(Traceparent)])).None?
      case InvalidEnvelope =>
        && (policy.unknown.RejectUnknown? && IsVersionOne(c, w) ==> !NamesUnknown(w))
        && forall e :: !Admits(c, policy, w, e)
      case TooLarge => false
  {
    OverflowsExactly(c, policy, w);
    VersionIsOne(c, w);
    UnknownPartIs(w, map[]);
    if Parse(c, policy, w).error.InvalidEnvelope? {
      forall e ensures !Admits(c, policy, w, e) {
        ParsedExactly(c, policy, w, e);
      }
    }
  }

  // ---------------------------------------------------------------- writing

  predicate Writes(w: Wire, f: Field, o: Option<Json>) {
    if o.None? then Known(f) !in w else Known(f) in w && w[Known(f)] == o.value
  }

  function TextOf(o: Option<string>): Option<Json> {
    if o.None? then None else Some(Str(o.value))
  }

  function IdOf(c: Codec, o: Option<Uuid>): Option<Json> {
    if o.None? then None else Some(Str(c.formatUuid(o.value)))
  }

  predicate WritesIds(c: Codec, e: EventEnvelope, w: Wire) {
    && Writes(w, EventId, IdOf(c, Some(e.eventId))) && Writes(w, CorrelationId, IdOf(c, Some(e.correlationId)))
    && Writes(w, CausationId, IdOf(c, e.causationId)) && Writes(w, TenantId, IdOf(c, e.tenantId))
    && Writes(w, OrganizationId, IdOf(c, e.organizationId)) && Writes(w, AggregateId, IdOf(c, e.aggregateId))
  }

  predicate WritesTexts(e: EventEnvelope, w: Wire) {
    && Writes(w, EventType, TextOf(Some(e.eventType))) && Writes(w, Producer, TextOf(Some(e.producer)))
    && Writes(w, AggregateType, TextOf(e.aggregateType)) && Writes(w, SchemaUri, TextOf(e.schemaUri))
    && Writes(w, Traceparent, TextOf(e.traceparent)) && Writes(w, Tracestate, TextOf(e.tracestate))
  }

  predicate WritesNumbers(e: EventEnvelope, w: Wire) {
    && Writes(w, EnvelopeVersion, Some(Num(e.envelopeVersion))) && Writes(w, EventVersion, Some(Num(e.eventVersion)))
    && Writes(w, AggregateVersion, if e.aggregateVersion.None? then None else Some(Num(e.aggregateVersion.value)))
    && Writes(w, PiiPresent, Some(Bool(e.piiPresent)))
  }

  predicate WritesTimes(e: EventEnvelope, w: Wire) {
    && Writes(w, OccurredAt, TextOf(Some(FormatUtc(e.occurredAt))))
    && Writes(w, PublishedAt, if e.publishedAt.None? then None else TextOf(Some(FormatUtc(e.publishedAt.value))))
  }

  predicate WritesContent(e: EventEnvelope, w: Wire) {
    && Writes(w, Payload, Some(Obj(e.payload)))
    && Writes(w, Metadata, if e.metadata.None? then None else Some(Obj(e.metadata.value)))
    && (e.mediaRefs.None? ==> Known(MediaRefs) !in w)
    && (e.mediaRefs.Some? ==>
          && Known(MediaRefs) in w && w[Known(MediaRefs)].Arr? && |w[Known(MediaRefs)].items| == |e.mediaRefs.value|
          && forall i :: 0 <= i < |e.mediaRefs.value| ==>
               WritesRef(w[Known(MediaRefs)].items[i], e.mediaRefs.value[i]))
  }

  predicate WritesRef(j: Json, r: MediaRef) {
    && j.Obj? && "ref_type" in j.fields && j.fields["ref_type"] == Str(r.refType)
    && "bucket" in j.fields && j.fields["bucket"] == Str(r.bucket)
    && "key" in j.fields && j.fields["key"] == Str(r.key)
    && (if r.contentType.None? then j.fields.Keys == {"ref_type", "bucket", "key"}
        else j.fields.Keys == {"ref_type", "bucket", "key", "content_type"}
             && j.fields["content_type"] == Str(r.contentType.value))
  }

  predicate WritesWords(e: EventEnvelope, w: Wire) {
    && Writes(w, Kind, Some(Str(match e.messageKind
         case Domain => "domain" case Integration => "integration" case Command => "command"
         case Reply => "reply" case Projection => "projection")))
    && Writes(w, Scope, Some(Str(if e.aggregateScope == Aggregate then "aggregate" else "non_aggregate")))
    && Writes(w, Classification, Some(Str(match e.dataClassification
         case Public => "public" case Internal => "internal" case Confidential => "confidential"
         case Restricted => "restricted")))
  }

  lemma FieldIsWritten(c: Codec, e: EventEnvelope, f: Field)
    requires Known(f) !in e.unknownFields
    ensures Writes(WireOf(c, e), f, FieldJson(c, e, f))
  {
  }

  lemma RefIsWritten(r: MediaRef)
    ensures WritesRef(RefJson(r), r)
  {
    var required := map["ref_type" := Str(r.refType), "bucket" := Str(r.bucket), "key" := Str(r.key)];
    assert required.Keys == {"ref_type", "bucket", "key"};
    if r.contentType.Some? {
      assert RefJson(r).fields.Keys == required.Keys + {"content_type"};
    }
  }

  /** Writing, exactly: every field under its own name, absent ones left out, and the preserved names as they were. */
  lemma WrittenExactly(c: Codec, e: EventEnvelope)
    requires UnknownsAreUnknown(e.unknownFields)
    ensures var w := WireOf(c, e);
      && WritesIds(c, e, w) && WritesTexts(e, w) && WritesNumbers(e, w) && WritesTimes(e, w) && WritesContent(e, w)
      && WritesWords(e, w)
      && Known(UnknownFields) !in w
      && (forall k: Key :: k.Unknown? ==> (k in w <==> k in e.unknownFields))
      && (forall k :: k in e.unknownFields ==> w[k] == e.unknownFields[k])
  {
    var w := WireOf(c, e);
    WireIsWritten(c, e);
    IdsAreWritten(c, e, w);
    TextsAreWritten(c, e, w);
    NumbersAreWritten(c, e, w);
    TimesAreWritten(c, e, w);
    ContentIsWritten(c, e, w);
    WordsAreWritten(c, e, w);
    PreservedAreWritten(c, e);
  }

  lemma WireIsWritten(c: Codec, e: EventEnvelope)
    requires UnknownsAreUnknown(e.unknownFields)
    ensures AllWritten(c, e, WireOf(c, e))
  {
    forall f: Field ensures Writes(WireOf(c, e), f, FieldJson(c, e, f)) {
      FieldIsWritten(c, e, f);
    }
  }

  lemma PreservedAreWritten(c: Codec, e: EventEnvelope)
    requires UnknownsAreUnknown(e.unknownFields)
    ensures var w := WireOf(c, e);
      && Known(UnknownFields) !in w && (forall k: Key :: k.Unknown? ==> (k in w <==> k in e.unknownFields))
      && (forall k :: k in e.unknownFields ==> w[k] == e.unknownFields[k])
  {
    FieldIsWritten(c, e, UnknownFields);
  }

  ghost predicate AllWritten(c: Codec, e: EventEnvelope, w: Wire) {
    forall f: Field :: Writes(w, f, FieldJson(c, e, f))
  }

  lemma OneIsWritten(c: Codec, e: EventEnvelope, w: Wire, f: Field, o: Option<Json>)
    requires AllWritten(c, e, w) && FieldJson(c, e, f) == o
    ensures Writes(w, f, o)
  {
  }

  lemma IdsAreWritten(c: Codec, e: EventEnvelope, w: Wire)
    requires AllWritten(c, e, w)
    ensures WritesIds(c, e, w)
  {
    OneIsWritten(c, e, w, EventId, IdOf(c, Some(e.eventId)));
    OneIsWritten(c, e, w, CorrelationId, IdOf(c, Some(e.correlationId)));
    OneIsWritten(c, e, w, CausationId, IdOf(c, e.causationId));
    OneIsWritten(c, e, w, TenantId, IdOf(c, e.tenantId));
    OneIsWritten(c, e, w, OrganizationId, IdOf(c, e.organizationId));
    OneIsWritten(c, e, w, AggregateId, IdOf(c, e.aggregateId));
  }

  lemma TextsAreWritten(c: Codec, e: EventEnvelope, w: Wire)
    requires AllWritten(c, e, w)
    ensures WritesTexts(e, w)
  {
    OneIsWritten(c, e, w, EventType, TextOf(Some(e.eventType)));
    OneIsWritten(c, e, w, Producer, TextOf(Some(e.producer)));
    OneIsWritten(c, e, w, AggregateType, TextOf(e.aggregateType));
    OneIsWritten(c, e, w, SchemaUri, TextOf(e.schemaUri));
    OneIsWritten(c, e, w, Traceparent, TextOf(e.traceparent));
    OneIsWritten(c, e, w, Tracestate, TextOf(e.tracestate));
  }

  lemma NumbersAreWritten(c: Codec, e: EventEnvelope, w: Wire)
    requires AllWritten(c, e, w)
    ensures WritesNumbers(e, w)
  {
    assert Writes(w, EnvelopeVersion, FieldJson(c, e, EnvelopeVersion));
    assert Writes(w, EventVersion, FieldJson(c, e, EventVersion));
    assert Writes(w, AggregateVersion, FieldJson(c, e, AggregateVersion));
    assert Writes(w, PiiPresent, FieldJson(c, e, PiiPresent));
  }

  lemma TimesAreWritten(c: Codec, e: EventEnvelope, w: Wire)
    requires AllWritten(c, e, w)
    ensures WritesTimes(e, w)
  {
    assert Writes(w, OccurredAt, FieldJson(c, e, OccurredAt));
    assert Writes(w, PublishedAt, FieldJson(c, e, PublishedAt));
  }

  lemma ContentIsWritten(c: Codec, e: EventEnvelope, w: Wire)
    requires AllWritten(c, e, w)
    ensures WritesContent(e, w)
  {
    assert Writes(w, Payload, FieldJson(c, e, Payload)) && Writes(w, Metadata, FieldJson(c, e, Metadata));
    assert Writes(w, MediaRefs, FieldJson(c, e, MediaRefs));
    forall r ensures WritesRef(RefJson(r), r) {
      RefIsWritten(r);
    }
  }

  lemma WordsAreWritten(c: Codec, e: EventEnvelope, w: Wire)
    requires AllWritten(c, e, w)
    ensures WritesWords(e, w)
  {
    assert Writes(w, Kind, FieldJson(c, e, Kind)) && Writes(w, Scope, FieldJson(c, e, Scope));
    assert Writes(w, Classification, FieldJson(c, e, Classification));
  }

  /** A producer refuses exactly an envelope with preserved names, if it is strict, or one too large to send. */
  lemma SerializedExactly(c: Codec, policy: SerdePolicy, e: EventEnvelope)
    ensures var r := Serialize(c, policy, e); var strict := policy.unknown.RejectUnknown? && e.unknownFields != map[];
      && (r.Ok? <==> !strict && c.encodedSize(WireOf(c, e)) <= 262144)
      && (r.Ok? ==> r.value == WireOf(c, e))
      && (r.Err? ==> r.error == if strict then UnknownFieldsRejected else TooLarge)
  {
  }
}
