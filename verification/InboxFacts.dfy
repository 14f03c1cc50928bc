/** What the stored rows and observations say, told from the deliveries and the clock that made them. */
module InboxFacts {
  import opened Wrappers
  import opened Json
  import opened Messaging
  import opened AuditTypes
  import opened InboxSpec
  import opened InboxRuns
  import opened InboxOrder
  import Envelope
  import Timestamps
  import Validation

  // ---------------------------------------------------------------- what a body asks for

  /** The body is JSON and reads as this envelope. */
  ghost predicate Decodes(s: Settings, d: Delivery, e: Envelope.EventEnvelope) {
    && s.out.decodeJson(d.body).Decoded?
    && Envelope.Parse(s.out.codec, Envelope.CONSUMER_POLICY, s.out.decodeJson(d.body).wire) == Ok(e)
  }

  /** A body that is not JSON, or JSON that is no envelope; an infinite version is neither. */
  ghost predicate IsPoison(s: Settings, d: Delivery) {
    match s.out.decodeJson(d.body)
    case NotJson => true
    case Decoded(wire) =>
      var parsed := Envelope.Parse(s.out.codec, Envelope.CONSUMER_POLICY, wire);
      parsed.Err? && parsed != Err(Envelope.IntOverflow)
    case _ => false
  }

  /** The event id of a body nobody can read: the broker's message id if it is a UUID, else a fingerprint. */
  ghost predicate IdentifiesPoison(s: Settings, d: Delivery, id: Uuid) {
    var seqText := if d.jetstreamSeq.None? || d.jetstreamSeq == Some(0) then ""
                   else s.out.codec.toText(Num(d.jetstreamSeq.value));
    if d.natsMsgId.Some? && d.natsMsgId.value != "" && s.out.codec.parseUuid(d.natsMsgId.value).Some? then
      s.out.codec.parseUuid(d.natsMsgId.value) == Some(id)
    else
      exists head :: head <= d.body && |head| == (if |d.body| < 256 then |d.body| else 256)
        && id == s.out.fingerprint(d.consumerName, d.subject, seqText, head)
  }

  lemma PoisonReads(s: Settings, d: Delivery)
    requires IsPoison(s, d)
    ensures ReadsAsPoison(s, d, WorkOf(s, d))
  {
    PoisonIdIs(s, d);
    if s.out.decodeJson(d.body).Decoded? {
      var wire := s.out.decodeJson(d.body).wire;
      DecodedReads(s, d, wire);
      ParsedReads(s, ParsedBody(s, wire), d);
    }
  }

  lemma PoisonIdIs(s: Settings, d: Delivery)
    ensures IdentifiesPoison(s, d, PoisonEventId(s.out, d))
  {
    var head := if |d.body| <= 256 then d.body else d.body[..256];
    assert head <= d.body;
  }

  lemma ValidatedReads(s: Settings, e: Envelope.EventEnvelope, d: Delivery)
    requires IterationIsFair(s.out)
    ensures ReadsAs(s, e, d, WorkOfEnvelope(s, e, d))
  {
    var validated := Validation.Validated(s.out, s.contract, e, d);
    Validation.AcceptedExactly(s.out, s.contract, e, d);
    if validated.Ok? {
      Validation.AcceptedStatesPayload(s.out, s.contract, e, d);
    } else if validated.error.Rejection? {
      Validation.RejectionCodes(s.out, s.contract, e, d);
      Validation.RejectionsAreTrue(s.out, s.contract, e, d);
    }
    ValidatedComesTo(e, validated);
  }

  lemma ValidatedComesTo(e: Envelope.EventEnvelope, validated: Result<Message, Validation.Problem>)
    ensures var w := WorkOfValidated(e, validated);
      && (validated.Ok? ==> w == Apply(validated.value))
      && (validated.Err? && validated.error.TooDeep? ==> w.Unhandled?)
      && (validated.Err? && validated.error.Rejection? ==>
            w == Refuse(Header(e.eventId, e.eventType, e.eventVersion, Some(e.correlationId)), validated.error.code,
                        validated.error.detail, false))
  {
  }

  /**
   What a readable envelope comes to: exactly if it is acceptable a message with every field as the payload states it,
   and otherwise a rejection under the envelope's own header, unless validating it raises.
   */
  ghost predicate ReadsAs(s: Settings, e: Envelope.EventEnvelope, d: Delivery, w: Work) {
    if Validation.Acceptable(s.out, s.contract, e, d) then
      w.Apply? && Validation.StatesPayload(s.out, s.contract, e, w.message)
    else
      w.Unhandled? ||
      (&& w.Refuse? && !w.undecoded
       && w.header == Header(e.eventId, e.eventType, e.eventVersion, Some(e.correlationId))
       && w.code == (if Validation.IsForeign(s.contract, d) then "SUBJECT_FORBIDDEN" else "SCHEMA_MISMATCH")
       && Validation.IsTrueDetail(s.out, s.contract, e, d, w.detail))
  }

  ghost predicate ReadsAsPoison(s: Settings, d: Delivery, w: Work) {
    && w.Refuse? && w.undecoded && w.code == "DESERIALIZE_FAILURE" && w.detail == "envelope could not be deserialized"
    && IdentifiesPoison(s, d, w.header.eventId)
    && w.header.eventType == s.contract.eventType && w.header.eventVersion == s.contract.eventVersion
    && w.header.correlationId.None?
  }

  lemma ParsedReads(s: Settings, parsed: Result<Envelope.EventEnvelope, Envelope.EnvelopeError>, d: Delivery)
    ensures parsed.Ok? ==> WorkOfParsed(s, parsed, d) == WorkOfEnvelope(s, parsed.value, d)
    ensures parsed.Err? ==>
      WorkOfParsed(s, parsed, d) == if parsed.error.IntOverflow? then Unhandled(OverflowError) else PoisonWork(s, d)
  {
  }

  lemma EnvelopeReads(s: Settings, d: Delivery, e: Envelope.EventEnvelope)
    requires Decodes(s, d, e)
    ensures WorkOf(s, d) == WorkOfEnvelope(s, e, d)
  {
    DecodedReads(s, d, s.out.decodeJson(d.body).wire);
    ParsedReads(s, Ok(e), d);
  }

  /** What is raised past the handlers, and for what. */
  lemma EscapesAs(s: Settings, d: Delivery)
    requires WorkOf(s, d).Unhandled?
    ensures WorkOf(s, d).escape ==
      match s.out.decodeJson(d.body)
      case NotAnObject => AttributeError
      case Decoded(wire) =>
        if Envelope.Parse(s.out.codec, Envelope.CONSUMER_POLICY, wire).Ok? then RecursionError else OverflowError
      case _ => RecursionError
  {
    if s.out.decodeJson(d.body).Decoded? {
      var wire := s.out.decodeJson(d.body).wire;
      DecodedReads(s, d, wire);
      ParsedReads(s, ParsedBody(s, wire), d);
    }
  }

  /** What reading a body comes to. */
  lemma ReadingExactly(s: Settings, d: Delivery)
    requires IterationIsFair(s.out)
    ensures IsPoison(s, d) ==> ReadsAsPoison(s, d, WorkOf(s, d))
    ensures forall e :: Decodes(s, d, e) ==> ReadsAs(s, e, d, WorkOf(s, d))
    ensures !IsPoison(s, d) && (forall e :: !Decodes(s, d, e)) ==> WorkOf(s, d).Unhandled?
  {
    if IsPoison(s, d) {
      PoisonReads(s, d);
    }
    forall e | Decodes(s, d, e) ensures ReadsAs(s, e, d, WorkOf(s, d)) {
      EnvelopeReads(s, d, e);
      ValidatedReads(s, e, d);
    }
    if !IsPoison(s, d) && forall e :: !Decodes(s, d, e) {
      NothingReads(s, d);
    }
  }

  lemma NothingReads(s: Settings, d: Delivery)
    requires !IsPoison(s, d) && forall e :: !Decodes(s, d, e)
    ensures WorkOf(s, d).Unhandled?
  {
    if s.out.decodeJson(d.body).Decoded? {
      var parsed := Envelope.Parse(s.out.codec, Envelope.CONSUMER_POLICY, s.out.decodeJson(d.body).wire);
      if parsed.Ok? {
        assert Decodes(s, d, parsed.value);
      }
    }
  }

  // ---------------------------------------------------------------- what an observation says

  /** Every field of an observation, as the body of its delivery states it. */
  predicate StatesBody(out: Outside, c: Contract, e: Envelope.EventEnvelope, o: Observation, at: Instant) {
    var p := e.payload;
    && o.eventId == e.eventId && o.sourceSystem == c.sourceSystem && o.receivedAt == at
    && Validation.SaysText(out, p, "source_table", o.sourceTable)
    && Validation.SaysUuid(out, p, "source_pk", o.sourcePk)
    && Validation.SaysText(out, p, "source_position", o.sourcePosition)
    && Validation.SaysText(out, p, "source_module", o.sourceModule)
    && Validation.SaysUuid(out, p, "audit_entry_id", o.auditEntryId) && Validation.SaysText(out, p, "action", o.action)
    && Validation.SaysText(out, p, "entity_type", o.entityType) && Validation.SaysUuid(out, p, "entity_id", o.entityId)
    && Validation.SaysText(out, p, "actor_type", o.actorType) && Validation.SaysText(out, p, "source", o.source)
    && (if Validation.SaysNothing(p, "actor_id") then o.actorId.None?
        else o.actorId.Some? && Validation.SaysUuid(out, p, "actor_id", o.actorId.value))
    && "occurred_at" in p
    && Timestamps.ParseUtc(out.codec.otherTime, out.codec.toText(p["occurred_at"])) == Some(o.occurredAt)
    && Validation.SaysText(out, p, "bridge_mapper_version", o.mapperVersion)
    && Validation.SaysMetadata(p, o.safeMetadata)
  }

  lemma ProjectionStates(out: Outside, c: Contract, e: Envelope.EventEnvelope, m: Message, at: Instant)
    requires Validation.StatesPayload(out, c, e, m)
    ensures StatesBody(out, c, e, Project(m, at), at)
  {
  }

  /** Event i of a run is the one after which there is an observation of this id. */
  ghost predicate Appears(s: Settings, evs: seq<Event>, id: Uuid, i: nat) {
    i < |evs| && id !in Run(s, EMPTY, evs[..i]).observations && id in Run(s, EMPTY, evs[..i + 1]).observations
  }

  /** Some delivery has this body, is the one that made the observation appear, and says all of it. */
  ghost predicate Explains(s: Settings, evs: seq<Event>, id: Uuid, i: nat, e: Envelope.EventEnvelope) {
    && Appears(s, evs, id, i) && Decodes(s, evs[i].delivery, e)
    && id in Run(s, EMPTY, evs).observations
    && StatesBody(s.out, s.contract, e, Run(s, EMPTY, evs).observations[id], evs[i].now)
  }

  lemma AppliedDecodes(s: Settings, d: Delivery) returns (e: Envelope.EventEnvelope)
    requires IterationIsFair(s.out) && WorkOf(s, d).Apply?
    ensures Decodes(s, d, e) && Validation.StatesPayload(s.out, s.contract, e, WorkOf(s, d).message)
  {
    ReadingExactly(s, d);
    e :| Decodes(s, d, e);
  }

  /**
   After every run, every stored observation is explained by one delivery: the only one after which it appeared, whose
   body states every field of it.
   */
  lemma ObservationsStateTheirBodies(s: Settings, evs: seq<Event>, id: Uuid)
    requires IterationIsFair(s.out) && ReadsBodies(s, evs) && id in Run(s, EMPTY, evs).observations
    ensures exists i, e :: Explains(s, evs, id, i, e) && forall j :: Appears(s, evs, id, j) ==> j == i
  {
    ExactlyOnce(s, evs, id);
    var i: nat :| SoleWriter(s, evs, id, i);
    var e := AppliedDecodes(s, evs[i].delivery);
    ProjectionStates(s.out, s.contract, e, s.read(evs[i].delivery).message, evs[i].now);
    assert Explains(s, evs, id, i, e);
    forall j | Appears(s, evs, id, j) ensures j == i {
      LastIsWriter(s, EMPTY, evs, id, j);
    }
  }

  // ---------------------------------------------------------------- what a row says

  /** Where a row came from: the delivery that opened it. */
  predicate Opens(s: Settings, d: Delivery, now: Instant, w: Work, row: InboxRow) {
    && !w.Unhandled? && row.consumerName == s.consumerName && row.handlerVersion == s.handlerVersion
    && row.firstReceivedAt == now && row.stream == d.stream && row.seqNumber == d.jetstreamSeq
    && row.natsMsgId == d.natsMsgId
    && row.eventId == (if w.Apply? then w.message.eventId else w.header.eventId)
    && row.eventType == (if w.Apply? then w.message.eventType else w.header.eventType)
    && row.eventVersion == (if w.Apply? then w.message.eventVersion else w.header.eventVersion)
    && row.correlationId == (if w.Apply? then Some(w.message.correlationId) else w.header.correlationId)
  }

  /** A row that was there keeps where it came from. */
  predicate KeepsOrigin(before: InboxRow, row: InboxRow) {
    && row.consumerName == before.consumerName && row.handlerVersion == before.handlerVersion
    && row.firstReceivedAt == before.firstReceivedAt && row.stream == before.stream
    && row.seqNumber == before.seqNumber && row.natsMsgId == before.natsMsgId && row.eventId == before.eventId
    && row.eventType == before.eventType && row.eventVersion == before.eventVersion
    && row.correlationId == before.correlationId
  }

  /** Why an event is quarantined: its rejection, the failure of its projection, or too many attempts. */
  predicate Blames(s: Settings, attempts: int, hooks: Hooks, w: Work, row: InboxRow) {
    var clean := s.out.sanitizeError;
    if w.Refuse? then
      row.lastErrorCode == Some(w.code) && row.lastErrorMessage == Some(clean(clean(w.detail)))
    else
      || (s.maxAttempts > 0 && attempts + 1 >= s.maxAttempts && row.lastErrorCode == Some("MAX_DELIVER_EXCEEDED")
          && row.lastErrorMessage == Some(clean("inbox attempts exhausted")))
      || (hooks.poisonProjection.Some? && row.lastErrorCode == Some(hooks.poisonProjection.value.code)
          && row.lastErrorMessage == Some(clean(clean(hooks.poisonProjection.value.detail))))
  }

  /** What a handling writes into a row: a projected event's times, or a quarantined one's and the blame. */
  predicate Writes(s: Settings, before: Option<InboxRow>, hooks: Hooks, d: Delivery, now: Instant, w: Work,
                   row: InboxRow) {
    && (if before.Some? then KeepsOrigin(before.value, row) else Opens(s, d, now, w, row))
    && row.processingOwner.None? && row.leaseUntil.None?
    && (if row.status.Processed? then
          && w.Apply? && row.processedAt == Some(now) && row.lastReceivedAt == now
          && row.processingStartedAt == Some(now)
          && row.attemptCount == (if before.Some? then before.value.attemptCount + 1 else 1)
          && row.lastErrorCode == (if before.Some? then before.value.lastErrorCode else None)
          && row.lastErrorMessage == (if before.Some? then before.value.lastErrorMessage else None)
          && row.quarantinedAt == (if before.Some? then before.value.quarantinedAt else None)
        else
          && row.status.Quarantined? && row.quarantinedAt == Some(now)
          && row.processedAt == (if before.Some? then before.value.processedAt else None)
          && row.lastReceivedAt == (if before.Some? then before.value.lastReceivedAt else now)
          && row.processingStartedAt == (if before.Some? then before.value.processingStartedAt else Some(now))
          && row.attemptCount == (if before.Some? then before.value.attemptCount else 1)
          && Blames(s, if before.Some? then before.value.attemptCount else 0, hooks, w, row))
  }

  lemma QuarantineWrites(s: Settings, row: Option<InboxRow>, hooks: Hooks, left: Hooks, d: Delivery, now: Instant,
                         h: Header, code: string, detail: string, rolledBack: bool, w: Work)
    requires !w.Unhandled? && h == WorkHeader(w)
    requires w.Refuse? ==> w.code == code && w.detail == detail
    requires w.Apply? ==> hooks.poisonProjection == Some(Fault(code, detail))
    ensures var plan := QuarantinePlan(s, row, left, d, now, h, code, detail, rolledBack);
      plan.Save? ==> Writes(s, row, hooks, d, now, w, plan.row)
  {
  }

  lemma ProjectWrites(s: Settings, row: Option<InboxRow>, room: nat, hooks: Hooks, d: Delivery, now: Instant,
                      m: Message, base: InboxRow, known: bool, reason: string)
    requires base == if row.Some? then ReclaimedRow(s, row.value, now) else FreshRow(s, MessageHeader(m), d, now)
    ensures var plan := ProjectPlan(s, row, room, hooks, d, now, m, base, known, reason);
      plan.Save? ==> Writes(s, row, hooks, d, now, Apply(m), plan.row)
  {
    if !hooks.failProjection && hooks.poisonProjection.Some? {
      var f := hooks.poisonProjection.value;
      QuarantineWrites(s, row, hooks, hooks.(poisonProjection := None), d, now, MessageHeader(m), f.code, f.detail,
                       true, Apply(m));
    }
  }

  lemma ApplyWrites(s: Settings, row: Option<InboxRow>, known: bool, room: nat, hooks: Hooks, d: Delivery,
                    now: Instant, m: Message)
    ensures var plan := ApplyPlan(s, row, known, room, hooks, d, now, m);
      plan.Save? ==> Writes(s, row, hooks, d, now, Apply(m), plan.row)
  {
    if row.None? {
      ProjectWrites(s, row, room, hooks, d, now, m, FreshRow(s, MessageHeader(m), d, now), known,
                    "processed_ack_after_commit");
    } else {
      ProjectWrites(s, row, room, hooks, d, now, m, ReclaimedRow(s, row.value, now), known,
                    "reclaimed_processed_ack_after_commit");
    }
  }

  lemma PlanWrites(s: Settings, row: Option<InboxRow>, known: bool, room: nat, hooks: Hooks, d: Delivery,
                   now: Instant, w: Work)
    ensures var plan := PlanFor(s, row, known, room, hooks, d, now, w);
      plan.Save? ==> Writes(s, row, hooks, d, now, w, plan.row)
  {
    match w
    case Apply(m) => ApplyWrites(s, row, known, room, hooks, d, now, m);
    case Refuse(h, code, detail, _) => QuarantineWrites(s, row, hooks, hooks, d, now, h, code, detail, false, w);
    case Unhandled(_) =>
  }

  /** A handling that changes a row writes it as the delivery and the clock have it, and touches no other row. */
  lemma StepWritesRow(s: Settings, st: State, ev: Event, k: InboxKey)
    requires RowAt(Step(s, st, ev).state, k) != RowAt(st, k)
    ensures k in Step(s, st, ev).state.inbox && k == KeyOf(s, IdOf(s, ev.delivery))
    ensures Writes(s, RowAt(st, k), Arm(st.hooks, ev.armed), ev.delivery, ev.now, s.read(ev.delivery),
                   Step(s, st, ev).state.inbox[k])
  {
    StepIsPlanned(s, st, ev);
    ExecuteTables(Armed(st, ev), KeyOf(s, IdOf(s, ev.delivery)), PlanAt(s, st, ev));
    var own := KeyOf(s, IdOf(s, ev.delivery));
    PlanWrites(s, RowAt(st, own), IdOf(s, ev.delivery) in st.observations, Room(s.out, st.observations),
               Arm(st.hooks, ev.armed), ev.delivery, ev.now, s.read(ev.delivery));
  }

  /** What event j, the last to change a row that event i opened, left in it. */
  predicate Settles(s: Settings, first: Event, last: Event, same: bool, hooks: Hooks, w: Work, row: InboxRow) {
    if row.status.Processed? then
      && w.Apply? && row.processedAt == Some(last.now) && row.lastReceivedAt == last.now
      && row.attemptCount == (if same then 1 else 2)
      && (row.lastErrorCode.None? <==> same) && (row.lastErrorMessage.None? <==> same)
      && (row.quarantinedAt.None? <==> same)
    else
      && row.status.Quarantined? && row.quarantinedAt == Some(last.now) && row.processedAt.None?
      && row.lastReceivedAt == first.now && row.attemptCount == 1
      && row.lastErrorCode.Some? && row.lastErrorMessage.Some?
      && Blames(s, if same then 0 else 1, hooks, w, row)
  }

  /** A row opened by one event and changed for the last time by another, or the same. */
  predicate Made(s: Settings, first: Event, isFirst: bool, last: Event, same: bool, before: State, k: InboxKey,
                 row: InboxRow)
  {
    && isFirst && RowAt(before, k) != Some(row) && Opens(s, first.delivery, first.now, s.read(first.delivery), row)
    && Settles(s, first, last, same, Arm(before.hooks, last.armed), s.read(last.delivery), row)
  }

  /** Event i is the one after which there is a row under this key. */
  ghost predicate OpenedAt(s: Settings, evs: seq<Event>, k: InboxKey, i: nat) {
    i < |evs| && k !in Run(s, EMPTY, evs[..i]).inbox && k in Run(s, EMPTY, evs[..i + 1]).inbox
  }

  /** The story of a row: opened by event i, changed for the last time by event j. */
  ghost predicate Tells(s: Settings, evs: seq<Event>, k: InboxKey, i: nat, j: nat) {
    && i <= j < |evs| && k in Run(s, EMPTY, evs).inbox
    && RowAt(Run(s, EMPTY, evs[..j + 1]), k) == RowAt(Run(s, EMPTY, evs), k)
    && Made(s, evs[i], OpenedAt(s, evs, k, i), evs[j], i == j, Run(s, EMPTY, evs[..j]), k,
            Run(s, EMPTY, evs).inbox[k])
  }

  lemma OpenedStays(s: Settings, evs: seq<Event>, k: InboxKey, i: nat)
    requires evs != [] && OpenedAt(s, evs[..|evs| - 1], k, i)
    ensures OpenedAt(s, evs, k, i)
  {
    var init := evs[..|evs| - 1];
    assert init[..i] == evs[..i] && init[..i + 1] == evs[..i + 1];
  }

  lemma StoryGoesOn(s: Settings, evs: seq<Event>, k: InboxKey, i: nat, j: nat)
    requires evs != [] && Tells(s, evs[..|evs| - 1], k, i, j)
    requires RowAt(Run(s, EMPTY, evs), k) == RowAt(Run(s, EMPTY, evs[..|evs| - 1]), k)
    ensures Tells(s, evs, k, i, j)
  {
    var init := evs[..|evs| - 1];
    OpenedStays(s, evs, k, i);
    PrefixOfPrefix(evs, j);
    SameMaking(s, evs[i], OpenedAt(s, init, k, i), OpenedAt(s, evs, k, i), evs[j], i == j, Run(s, EMPTY, init[..j]),
               Run(s, EMPTY, evs[..j]), k, Run(s, EMPTY, init).inbox[k]);
  }

  lemma PrefixOfPrefix(evs: seq<Event>, j: nat)
    requires j < |evs| - 1
    ensures evs[..|evs| - 1][..j] == evs[..j] && evs[..|evs| - 1][..j + 1] == evs[..j + 1]
  {
  }

  lemma SameMaking(s: Settings, first: Event, a: bool, b: bool, last: Event, same: bool, before: State, also: State,
                   k: InboxKey, row: InboxRow)
    requires Made(s, first, a, last, same, before, k, row) && (a ==> b) && before == also
    ensures Made(s, first, b, last, same, also, k, row)
  {
  }

  lemma ReopenedSettles(s: Settings, before: InboxRow, first: Event, last: Event, hooks: Hooks, w: Work, row: InboxRow)
    requires Writes(s, Some(before), hooks, last.delivery, last.now, w, row)
    requires before.status.Quarantined? && before.attemptCount == 1 && before.lastReceivedAt == first.now
    requires before.lastErrorCode.Some? && before.lastErrorMessage.Some? && before.quarantinedAt.Some?
    requires before.processedAt.None?
    ensures Settles(s, first, last, false, hooks, w, row) && KeepsOrigin(before, row)
  {
  }

  lemma FreshSettles(s: Settings, ev: Event, hooks: Hooks, w: Work, row: InboxRow)
    requires Writes(s, None, hooks, ev.delivery, ev.now, w, row)
    ensures Settles(s, ev, ev, true, hooks, w, row) && Opens(s, ev.delivery, ev.now, w, row)
  {
  }

  lemma StoryBegins(s: Settings, evs: seq<Event>, k: InboxKey)
    requires evs != [] && k !in Run(s, EMPTY, evs[..|evs| - 1]).inbox && k in Run(s, EMPTY, evs).inbox
    ensures Tells(s, evs, k, |evs| - 1, |evs| - 1)
  {
    var n := |evs| - 1;
    var before, ev := Run(s, EMPTY, evs[..n]), evs[n];
    assert evs[..n + 1] == evs;
    StepWritesRow(s, before, ev, k);
    FreshSettles(s, ev, Arm(before.hooks, ev.armed), s.read(ev.delivery), Run(s, EMPTY, evs).inbox[k]);
  }

  lemma StoryTurns(s: Settings, evs: seq<Event>, k: InboxKey, i: nat, j: nat)
    requires evs != [] && Tells(s, evs[..|evs| - 1], k, i, j)
    requires RowAt(Run(s, EMPTY, evs), k) != RowAt(Run(s, EMPTY, evs[..|evs| - 1]), k)
    ensures Tells(s, evs, k, i, |evs| - 1)
  {
    var n := |evs| - 1;
    var init, ev := evs[..n], evs[n];
    var before := Run(s, EMPTY, init);
    assert evs[..n + 1] == evs;
    OpenedStays(s, evs, k, i);
    StepWritesRow(s, before, ev, k);
    StepRespectsStore(s, before, ev);
    MadeAnew(s, evs[i], init[j], i == j, Run(s, EMPTY, init[..j]), ev, before, k, Run(s, EMPTY, evs).inbox[k]);
  }

  lemma MadeAnew(s: Settings, first: Event, last: Event, same: bool, at: State, ev: Event, before: State,
                 k: InboxKey, row: InboxRow)
    requires k in before.inbox && Made(s, first, true, last, same, at, k, before.inbox[k])
    requires before.inbox[k].status != Processed && row != before.inbox[k]
    requires Writes(s, Some(before.inbox[k]), Arm(before.hooks, ev.armed), ev.delivery, ev.now, s.read(ev.delivery),
                    row)
    ensures Made(s, first, true, ev, false, before, k, row)
  {
    ReopenedSettles(s, before.inbox[k], first, ev, Arm(before.hooks, ev.armed), s.read(ev.delivery), row);
  }

  /**
   After every run every row tells where it came from -- the delivery that opened it -- and how it ended: when it was
   projected, at its first attempt or at the second after a quarantine, or when and for what it was quarantined.
   */
  lemma {:induction false} EveryRowTells(s: Settings, evs: seq<Event>, k: InboxKey)
    requires k in Run(s, EMPTY, evs).inbox
    ensures exists i, j :: Tells(s, evs, k, i, j)
  {
    var init := evs[..|evs| - 1];
    if k !in Run(s, EMPTY, init).inbox {
      StoryBegins(s, evs, k);
    } else {
      EveryRowTells(s, init, k);
      var i: nat, j: nat :| Tells(s, init, k, i, j);
      if RowAt(Run(s, EMPTY, evs), k) == RowAt(Run(s, EMPTY, init), k) {
        StoryGoesOn(s, evs, k, i, j);
      } else {
        StoryTurns(s, evs, k, i, j);
      }
    }
  }

  /** While it is worked on, a row belongs to this consumer's owner until its lease runs out. */
  lemma WorkIsLeased(s: Settings, h: Header, d: Delivery, row: InboxRow, now: Instant, later: Instant)
    ensures var first, again := FreshRow(s, h, d, now), ReclaimedRow(s, row, now);
      && first.processingOwner == Some(s.processingOwner) && again.processingOwner == Some(s.processingOwner)
      && (IsLeased(Some(first), later) <==> later < now + s.leaseDuration)
      && (IsLeased(Some(again), later) <==> later < now + s.leaseDuration)
  {
  }

  // ---------------------------------------------------------------- what the answer says

  /** Another owner's lease on the row has not run out. */
  predicate IsLeased(row: Option<InboxRow>, now: Instant) {
    && row.Some? && row.value.status.Processing?
    && row.value.leaseUntil.Some? && now < row.value.leaseUntil.value
  }

  /** The event needs no more work: it was projected, or is quarantined for good. */
  predicate IsSettled(s: Settings, row: Option<InboxRow>) {
    row.Some? && (row.value.status.Processed? || (row.value.status.Quarantined? && s.policy.AckTerminal?))
  }

  /** The message is about to be projected: it is not settled, not leased, and has an attempt left. */
  predicate IsDue(s: Settings, row: Option<InboxRow>, now: Instant, w: Work) {
    && w.Apply? && !IsSettled(s, row) && !IsLeased(row, now)
    && !(row.Some? && s.maxAttempts > 0 && row.value.attemptCount + 1 >= s.maxAttempts)
  }

  /** A quarantine is about to be recorded: of a rejection, of a poisoned projection, or for want of attempts. */
  predicate IsDoomed(s: Settings, row: Option<InboxRow>, hooks: Hooks, now: Instant, w: Work) {
    || (w.Refuse? && (row.Some? ==> !row.value.status.Processed?))
    || (w.Apply? && !IsSettled(s, row) && !IsLeased(row, now) && !IsDue(s, row, now, w))
    || (IsDue(s, row, now, w) && hooks.poisonProjection.Some?)
  }

  /** A failure fires where it is injected: at the projection first, else at the quarantine. */
  predicate Fails(s: Settings, row: Option<InboxRow>, hooks: Hooks, now: Instant, w: Work) {
    if IsDue(s, row, now, w) && hooks.failProjection then true
    else IsDoomed(s, row, hooks, now, w) && hooks.failQuarantine
  }

  /** The reason given, from the row that was met, the action taken and the status the row has now. */
  predicate GivesReason(s: Settings, row: Option<InboxRow>, w: Work, o: Outcome) {
    match o.action
    case Defer => o.reason == "active_processing_lease_no_second_effect"
    case Nak =>
      o.reason == "quarantine_persistence_failure_nak" || (w.Apply? && o.reason == "retryable_rollback_nak")
    case Ack =>
      if w.Apply? && IsSettled(s, row) then
        o.reason == if row.value.status.Processed? then "terminal_processed_duplicate"
                    else "quarantined_terminal_duplicate"
      else if row.Some? && row.value.status.Processed? then o.reason == "processed_duplicate_on_reject"
      else if o.status == Some(Processed) then
        o.reason == if row.None? then "processed_ack_after_commit" else "reclaimed_processed_ack_after_commit"
      else
        || o.reason == "permanent_quarantine_ack"
        || (w.Apply? && row.Some? && o.reason == "max_attempts_quarantine_ack")
  }

  /** What an answer says of the row and the observation it leaves. */
  predicate Says(s: Settings, row: Option<InboxRow>, known: bool, hooks: Hooks, now: Instant, w: Work, plan: Plan)
    requires plan.Refrain? || plan.Save?
  {
    var o := plan.outcome;
    var after := if plan.Save? then Some(plan.row) else row;
    && (o.action == Defer <==> w.Apply? && IsLeased(row, now))
    && (o.action == Nak <==> Fails(s, row, hooks, now, w))
    && (o.action == Nak ==> plan.Refrain? && o.status.None?)
    && (o.action != Nak ==> after.Some? && o.status == Some(after.value.status))
    && (o.written <==> plan.Save? && plan.observation.Some? && !known)
    && (plan.Refrain? && o.action == Ack ==> IsSettled(s, row) && (w.Refuse? ==> row.value.status.Processed?))
  }

  predicate Answers(s: Settings, row: Option<InboxRow>, known: bool, hooks: Hooks, now: Instant, w: Work, plan: Plan) {
    plan.Refrain? || plan.Save? ==> Says(s, row, known, hooks, now, w, plan) && GivesReason(s, row, w, plan.outcome)
  }

  lemma QuarantineAnswers(s: Settings, row: Option<InboxRow>, known: bool, hooks: Hooks, left: Hooks, d: Delivery,
                          now: Instant, h: Header, code: string, detail: string, rolledBack: bool, w: Work)
    requires IsDoomed(s, row, hooks, now, w) || (w.Refuse? && row.Some? && row.value.status.Processed?)
    requires left.failQuarantine == hooks.failQuarantine && !(IsDue(s, row, now, w) && hooks.failProjection)
    ensures Answers(s, row, known, hooks, now, w, QuarantinePlan(s, row, left, d, now, h, code, detail, rolledBack))
  {
    QuarantineReasons(s, row, left, d, now, h, code, detail, rolledBack, w);
    QuarantineSays(s, row, known, hooks, left, d, now, h, code, detail, rolledBack, w);
  }

  lemma QuarantineReasons(s: Settings, row: Option<InboxRow>, left: Hooks, d: Delivery, now: Instant, h: Header,
                          code: string, detail: string, rolledBack: bool, w: Work)
    requires w.Apply? ==> !IsSettled(s, row)
    ensures GivesReason(s, row, w, QuarantinePlan(s, row, left, d, now, h, code, detail, rolledBack).outcome)
  {
  }

  lemma QuarantineSays(s: Settings, row: Option<InboxRow>, known: bool, hooks: Hooks, left: Hooks, d: Delivery,
                       now: Instant, h: Header, code: string, detail: string, rolledBack: bool, w: Work)
    requires IsDoomed(s, row, hooks, now, w) || (w.Refuse? && row.Some? && row.value.status.Processed?)
    requires left.failQuarantine == hooks.failQuarantine && !(IsDue(s, row, now, w) && hooks.failProjection)
    ensures Says(s, row, known, hooks, now, w, QuarantinePlan(s, row, left, d, now, h, code, detail, rolledBack))
  {
    if row.Some? && row.value.status.Processed? {
      ProcessedSays(s, row, known, hooks, left, d, now, h, code, detail, rolledBack, w);
    } else if left.failQuarantine {
      FailedSays(s, row, known, hooks, left, d, now, h, code, detail, rolledBack, w);
    } else {
      RecordedSays(s, row, known, hooks, left, d, now, h, code, detail, rolledBack, w);
    }
  }

  lemma ProcessedSays(s: Settings, row: Option<InboxRow>, known: bool, hooks: Hooks, left: Hooks, d: Delivery,
                      now: Instant, h: Header, code: string, detail: string, rolledBack: bool, w: Work)
    requires IsDoomed(s, row, hooks, now, w) || w.Refuse?
    requires row.Some? && row.value.status.Processed?
    ensures Says(s, row, known, hooks, now, w, QuarantinePlan(s, row, left, d, now, h, code, detail, rolledBack))
  {
  }

  lemma FailedSays(s: Settings, row: Option<InboxRow>, known: bool, hooks: Hooks, left: Hooks, d: Delivery,
                   now: Instant, h: Header, code: string, detail: string, rolledBack: bool, w: Work)
    requires IsDoomed(s, row, hooks, now, w) && left.failQuarantine && hooks.failQuarantine
    requires row.Some? ==> !row.value.status.Processed?
    ensures Says(s, row, known, hooks, now, w, QuarantinePlan(s, row, left, d, now, h, code, detail, rolledBack))
  {
  }

  lemma RecordedSays(s: Settings, row: Option<InboxRow>, known: bool, hooks: Hooks, left: Hooks, d: Delivery,
                     now: Instant, h: Header, code: string, detail: string, rolledBack: bool, w: Work)
    requires IsDoomed(s, row, hooks, now, w) && !left.failQuarantine && !hooks.failQuarantine
    requires (row.Some? ==> !row.value.status.Processed?) && !(IsDue(s, row, now, w) && hooks.failProjection)
    ensures Says(s, row, known, hooks, now, w, QuarantinePlan(s, row, left, d, now, h, code, detail, rolledBack))
  {
  }

  lemma ProjectAnswers(s: Settings, row: Option<InboxRow>, room: nat, hooks: Hooks, d: Delivery, now: Instant,
                       m: Message, base: InboxRow, known: bool, reason: string)
    requires IsDue(s, row, now, Apply(m))
    requires reason == if row.None? then "processed_ack_after_commit" else "reclaimed_processed_ack_after_commit"
    ensures Answers(s, row, known, hooks, now, Apply(m),
                    ProjectPlan(s, row, room, hooks, d, now, m, base, known, reason))
  {
    if !hooks.failProjection && hooks.poisonProjection.Some? {
      var f := hooks.poisonProjection.value;
      QuarantineAnswers(s, row, known, hooks, hooks.(poisonProjection := None), d, now, MessageHeader(m), f.code,
                        f.detail,
                        true, Apply(m));
    }
  }

  lemma ApplyAnswers(s: Settings, row: Option<InboxRow>, known: bool, room: nat, hooks: Hooks, d: Delivery,
                     now: Instant, m: Message)
    ensures Answers(s, row, known, hooks, now, Apply(m), ApplyPlan(s, row, known, room, hooks, d, now, m))
  {
    if row.None? {
      ProjectAnswers(s, row, room, hooks, d, now, m, FreshRow(s, MessageHeader(m), d, now), known,
                     "processed_ack_after_commit");
    } else {
      DuplicateAnswers(s, row.value, known, room, hooks, d, now, m);
    }
  }

  lemma DuplicateAnswers(s: Settings, row: InboxRow, known: bool, room: nat, hooks: Hooks, d: Delivery, now: Instant,
                         m: Message)
    ensures Answers(s, Some(row), known, hooks, now, Apply(m), DuplicatePlan(s, row, room, hooks, d, now, m, known))
  {
    RerunExactly(s, row, now);
    if !DecideDuplicate(row.status, row.leaseUntil, now, s.policy).rerun {
      KnownAnswers(s, row, known, room, hooks, d, now, m);
    } else if ShouldQuarantine(Transient, row.attemptCount + 1, s.maxAttempts) {
      ExhaustedAnswers(s, row, known, room, hooks, d, now, m);
    } else {
      ProjectAnswers(s, Some(row), room, hooks, d, now, m, ReclaimedRow(s, row, now), known,
                     "reclaimed_processed_ack_after_commit");
    }
  }

  lemma RerunExactly(s: Settings, row: InboxRow, now: Instant)
    ensures DecideDuplicate(row.status, row.leaseUntil, now, s.policy).rerun <==>
      !IsSettled(s, Some(row)) && !IsLeased(Some(row), now)
  {
  }

  lemma KnownAnswers(s: Settings, row: InboxRow, known: bool, room: nat, hooks: Hooks, d: Delivery, now: Instant,
                     m: Message)
    requires !DecideDuplicate(row.status, row.leaseUntil, now, s.policy).rerun
    ensures Answers(s, Some(row), known, hooks, now, Apply(m), DuplicatePlan(s, row, room, hooks, d, now, m, known))
  {
  }

  lemma ExhaustedAnswers(s: Settings, row: InboxRow, known: bool, room: nat, hooks: Hooks, d: Delivery, now: Instant,
                         m: Message)
    requires !IsSettled(s, Some(row)) && !IsLeased(Some(row), now)
    requires DecideDuplicate(row.status, row.leaseUntil, now, s.policy).rerun
    requires ShouldQuarantine(Transient, row.attemptCount + 1, s.maxAttempts)
    ensures Answers(s, Some(row), known, hooks, now, Apply(m), DuplicatePlan(s, row, room, hooks, d, now, m, known))
  {
  }

  lemma PlanAnswers(s: Settings, row: Option<InboxRow>, known: bool, room: nat, hooks: Hooks, d: Delivery,
                    now: Instant, w: Work)
    ensures Answers(s, row, known, hooks, now, w, PlanFor(s, row, known, room, hooks, d, now, w))
  {
    match w
    case Apply(m) => ApplyAnswers(s, row, known, room, hooks, d, now, m);
    case Refuse(h, code, detail, _) => QuarantineAnswers(s, row, known, hooks, hooks, d, now, h, code, detail, false,
                                                         w);
    case Unhandled(_) =>
  }

  lemma ExecutedAnswer(s: Settings, st: State, k: InboxKey, now: Instant, w: Work, plan: Plan)
    requires Answers(s, RowAt(st, k), k.eventId in st.observations, st.hooks, now, w, plan)
    requires Execute(st, k, plan).ending.Returned?
    ensures AnswerIsTrue(s, st, k, now, w, Execute(st, k, plan))
  {
  }

  /** What the handler returns and the broker hears, against the tables before and after. */
  ghost predicate AnswerIsTrue(s: Settings, st: State, k: InboxKey, now: Instant, w: Work, h: Handling)
    requires h.ending.Returned?
  {
    var o, row, after := h.ending.outcome, RowAt(st, k), RowAt(h.state, k);
    && h.log != [] && h.log[|h.log| - 1] == Sent(o.action)
    && (o.action == Defer <==> w.Apply? && IsLeased(row, now))
    && (o.action == Nak <==> Fails(s, row, st.hooks, now, w)) && (o.action == Nak ==> o.status.None?)
    && (o.action != Nak ==> after.Some? && o.status == Some(after.value.status))
    && (o.written <==> k.eventId !in st.observations && k.eventId in h.state.observations)
    && GivesReason(s, row, w, o)
  }

  /**
   An answer is true: the status is the row's, something was written exactly if the observation is new, a deferral is
   given exactly under a running lease and a NAK exactly for a failure that fires, and the reason fits the row that was
   met.
   */
  lemma EveryAnswerIsTrue(s: Settings, st: State, ev: Event)
    requires Step(s, st, ev).ending.Returned?
    ensures AnswerIsTrue(s, Armed(st, ev), KeyOf(s, IdOf(s, ev.delivery)), ev.now, s.read(ev.delivery), Step(s, st, ev))
  {
    var w := s.read(ev.delivery);
    var k := KeyOf(s, EventIdOf(w));
    StepIsPlanned(s, st, ev);
    PlanAnswers(s, RowAt(st, k), EventIdOf(w) in st.observations, Room(s.out, st.observations),
                Arm(st.hooks, ev.armed), ev.delivery, ev.now, w);
    ExecutedAnswer(s, Armed(st, ev), k, ev.now, w, PlanAt(s, st, ev));
  }

  /** The armed crash swallows the ACK of a final row, only an ACK, and never fails to once it is met. */
  ghost predicate CrashIsMet(armed: State, k: InboxKey, h: Handling) {
    && (h.ending.Crashed? ==>
          && armed.hooks.crashBeforeAck && !h.state.hooks.crashBeforeAck && k in h.state.inbox
          && IsTerminal(h.state.inbox[k]) && forall a :: a in h.log ==> !a.Sent?)
    && (!h.ending.Crashed? ==> h.state.hooks.crashBeforeAck == armed.hooks.crashBeforeAck)
    && (h.ending.Returned? && h.ending.outcome.action == Ack ==> !armed.hooks.crashBeforeAck)
  }

  predicate KeepsCrash(hooks: Hooks, plan: Plan) {
    plan.Raise? || plan.hooks.crashBeforeAck == hooks.crashBeforeAck
  }

  lemma ApplyKeepsCrash(s: Settings, row: Option<InboxRow>, known: bool, room: nat, hooks: Hooks, d: Delivery,
                        now: Instant, m: Message)
    ensures KeepsCrash(hooks, ApplyPlan(s, row, known, room, hooks, d, now, m))
  {
  }

  lemma PlansKeepCrash(s: Settings, row: Option<InboxRow>, known: bool, room: nat, hooks: Hooks, d: Delivery,
                       now: Instant, w: Work)
    ensures KeepsCrash(hooks, PlanFor(s, row, known, room, hooks, d, now, w))
  {
    if w.Apply? {
      ApplyKeepsCrash(s, row, known, room, hooks, d, now, w.message);
    }
  }

  lemma ExecutedCrash(s: Settings, st: State, k: InboxKey, now: Instant, w: Work, plan: Plan)
    requires KeepsCrash(st.hooks, plan) && PlanRespects(s, RowAt(st, k), now, w, plan)
    ensures CrashIsMet(st, k, Execute(st, k, plan))
  {
  }

  /** What an armed crash does: it takes the place of an ACK that follows a commit, once, and of nothing else. */
  lemma CrashTakesAnAck(s: Settings, st: State, ev: Event)
    ensures CrashIsMet(Armed(st, ev), KeyOf(s, IdOf(s, ev.delivery)), Step(s, st, ev))
  {
    var w := s.read(ev.delivery);
    var k := KeyOf(s, EventIdOf(w));
    var known, room, hooks := EventIdOf(w) in st.observations, Room(s.out, st.observations), Arm(st.hooks, ev.armed);
    StepIsPlanned(s, st, ev);
    PlansKeepCrash(s, RowAt(st, k), known, room, hooks, ev.delivery, ev.now, w);
    PlansRespect(s, RowAt(st, k), known, room, hooks, ev.delivery, ev.now, w);
    ExecutedCrash(s, Armed(st, ev), k, ev.now, w, PlanAt(s, st, ev));
  }
}
