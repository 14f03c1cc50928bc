/**
 What one handling of one delivery does to the committed store, as a function. The coordinator's methods are proved
 to do exactly this; what the consumer promises is proved about this function and runs of it.
 */
module InboxSpec {
  import opened Wrappers
  import opened Json
  import opened Messaging
  import opened AuditTypes
  import Envelope
  import Validation

  /** `read` is what reading a delivery comes to; for the code itself that is WorkOf below. */
  datatype Settings = Settings(
    out: Outside, contract: Contract, consumerName: string, handlerVersion: string, processingOwner: string,
    leaseDuration: int, maxAttempts: int, policy: QuarantinePolicy, read: Delivery -> Work)

  // ---------------------------------------------------------------- what a delivery asks for

  datatype Header = Header(eventId: Uuid, eventType: string, eventVersion: int, correlationId: Option<Uuid>)

  /**
   A message to project, a rejection to quarantine -- from one call deeper when the body was undecodable -- or a
   delivery whose reading raises past every handler.
   */
  datatype Work =
    | Apply(message: Message)
    | Refuse(header: Header, code: string, detail: string, undecoded: bool)
    | Unhandled(escape: Escape)

  function MessageHeader(m: Message): Header {
    Header(m.eventId, m.eventType, m.eventVersion, Some(m.correlationId))
  }

  function WorkHeader(w: Work): Header
    requires !w.Unhandled?
  {
    if w.Apply? then MessageHeader(w.message) else w.header
  }

  /** str(jetstream_seq or "") */
  function SeqText(out: Outside, d: Delivery): string {
    if d.jetstreamSeq.None? || d.jetstreamSeq.value == 0 then "" else out.codec.toText(Num(d.jetstreamSeq.value))
  }

  /** The broker message id when it is a UUID, else a fingerprint of the delivery. */
  function PoisonEventId(out: Outside, d: Delivery): Uuid {
    var named := if d.natsMsgId.Some? && d.natsMsgId.value != "" then out.codec.parseUuid(d.natsMsgId.value) else None;
    if named.Some? then named.value
    else out.fingerprint(d.consumerName, d.subject, SeqText(out, d), if |d.body| <= 256 then d.body else d.body[..256])
  }

  function PoisonWork(s: Settings, d: Delivery): Work {
    Refuse(Header(PoisonEventId(s.out, d), s.contract.eventType, s.contract.eventVersion, None),
           "DESERIALIZE_FAILURE", "envelope could not be deserialized", true)
  }

  function ParsedBody(s: Settings, wire: Envelope.Wire): Result<Envelope.EventEnvelope, Envelope.EnvelopeError> {
    Envelope.Parse(s.out.codec, Envelope.CONSUMER_POLICY, wire)
  }

  function EnvelopeHeader(e: Envelope.EventEnvelope): Header {
    Header(e.eventId, e.eventType, e.eventVersion, Some(e.correlationId))
  }

  function WorkOfValidated(e: Envelope.EventEnvelope, validated: Result<Message, Validation.Problem>): Work {
    match validated
    case Ok(m) => Apply(m)
    case Err(TooDeep) => Unhandled(RecursionError)
    case Err(Rejection(code, detail)) => Refuse(EnvelopeHeader(e), code, detail, false)
  }

  function WorkOfEnvelope(s: Settings, e: Envelope.EventEnvelope, d: Delivery): Work {
    WorkOfValidated(e, Validation.Validated(s.out, s.contract, e, d))
  }

  function WorkOfParsed(s: Settings, parsed: Result<Envelope.EventEnvelope, Envelope.EnvelopeError>,
                        d: Delivery): Work {
    match parsed
    case Err(IntOverflow) => Unhandled(OverflowError)
    case Err(_) => PoisonWork(s, d)
    case Ok(e) => WorkOfEnvelope(s, e, d)
  }

  /**
   Deserialize, then validate. Only ValueError, TypeError and the envelope's own errors are caught while deserializing,
   and only ContractRejection while validating.
   */
  function WorkOf(s: Settings, d: Delivery): Work {
    match s.out.decodeJson(d.body)
    case NotJson => PoisonWork(s, d)
    case NestedTooDeep => Unhandled(RecursionError)
    case NotAnObject => Unhandled(AttributeError)
    case Decoded(wire) => WorkOfParsed(s, ParsedBody(s, wire), d)
  }

  /** The same consumer, with every delivery read as the code reads it. */
  function AsCoded(s: Settings): Settings {
    s.(read := d => WorkOf(s, d))
  }

  lemma SamePoison(s: Settings, c: Settings, d: Delivery)
    requires c.out == s.out && c.contract == s.contract
    ensures PoisonWork(c, d) == PoisonWork(s, d)
  {
  }

  lemma SameEnvelopeWork(s: Settings, c: Settings, e: Envelope.EventEnvelope, d: Delivery)
    requires c.out == s.out && c.contract == s.contract
    ensures WorkOfEnvelope(c, e, d) == WorkOfEnvelope(s, e, d)
  {
  }

  lemma SameParsedWork(s: Settings, c: Settings, parsed: Result<Envelope.EventEnvelope, Envelope.EnvelopeError>,
                       d: Delivery)
    requires c.out == s.out && c.contract == s.contract
    ensures WorkOfParsed(c, parsed, d) == WorkOfParsed(s, parsed, d)
  {
    SamePoison(s, c, d);
    if parsed.Ok? {
      SameEnvelopeWork(s, c, parsed.value, d);
    }
  }

  /** What reading comes to does not depend on `read`, so results about any reading hold of the code's own. */
  lemma CodedReads(s: Settings, d: Delivery)
    ensures AsCoded(s).read(d) == WorkOf(AsCoded(s), d) == WorkOf(s, d)
  {
    SameWork(s, AsCoded(s), d);
  }

  lemma SameWork(s: Settings, c: Settings, d: Delivery)
    requires c.out == s.out && c.contract == s.contract
    ensures WorkOf(c, d) == WorkOf(s, d)
  {
    if s.out.decodeJson(d.body).Decoded? {
      var wire := s.out.decodeJson(d.body).wire;
      DecodedReads(s, d, wire);
      DecodedReads(c, d, wire);
      SameParsedWork(s, c, ParsedBody(s, wire), d);
    } else {
      UndecodedReads(s, c, d);
    }
  }

  lemma DecodedReads(s: Settings, d: Delivery, wire: Envelope.Wire)
    requires s.out.decodeJson(d.body) == Decoded(wire)
    ensures WorkOf(s, d) == WorkOfParsed(s, ParsedBody(s, wire), d)
  {
  }

  lemma UndecodedReads(s: Settings, c: Settings, d: Delivery)
    requires c.out == s.out && c.contract == s.contract && !s.out.decodeJson(d.body).Decoded?
    ensures WorkOf(c, d) == WorkOf(s, d)
  {
    SamePoison(s, c, d);
  }

  /** An envelope in good order up to its metadata, where a list nests deeper than the scan can follow. */
  ghost predicate MetadataRunsOut(s: Settings, e: Envelope.EventEnvelope, d: Delivery) {
    && Validation.EntryProblem(s.contract, e, d).None? && Validation.SourceRow(s.out, s.contract, e).Ok?
    && Validation.ScanRunsOut(s.out, Validation.MetadataOf(e))
  }

  lemma UnhandledValidated(e: Envelope.EventEnvelope, validated: Result<Message, Validation.Problem>)
    ensures WorkOfValidated(e, validated).Unhandled? <==> validated == Err(Validation.TooDeep)
  {
  }

  lemma UnhandledEnvelope(s: Settings, e: Envelope.EventEnvelope, d: Delivery)
    ensures WorkOfEnvelope(s, e, d).Unhandled? <==> MetadataRunsOut(s, e, d)
  {
    Validation.ValidationEscapesExactly(s.out, s.contract, e, d);
    UnhandledValidated(e, Validation.Validated(s.out, s.contract, e, d));
  }

  lemma UnhandledParsed(s: Settings, parsed: Result<Envelope.EventEnvelope, Envelope.EnvelopeError>, d: Delivery)
    ensures WorkOfParsed(s, parsed, d).Unhandled? <==>
      parsed == Err(Envelope.IntOverflow) || (parsed.Ok? && MetadataRunsOut(s, parsed.value, d))
  {
    if parsed.Ok? {
      UnhandledEnvelope(s, parsed.value, d);
    }
  }

  /** What makes a decoded body escape every handler. */
  ghost predicate Escapes(s: Settings, decoded: Decoded, d: Delivery) {
    match decoded
    case NotJson => false
    case NestedTooDeep => true
    case NotAnObject => true
    case Decoded(wire) =>
      || (Envelope.Known(Envelope.EnvelopeVersion) in wire
          && Envelope.IsInfinite(wire[Envelope.Known(Envelope.EnvelopeVersion)]))
      || (ParsedBody(s, wire).Ok? && MetadataRunsOut(s, ParsedBody(s, wire).value, d))
  }

  /**
   A delivery escapes every handler exactly when its body nests too deep to decode, is JSON but no object, gives an
   infinite version, or holds an envelope whose metadata the secret scan cannot follow.
   */
  lemma UnhandledExactly(s: Settings, d: Delivery)
    requires Envelope.Lawful(s.out.codec)
    ensures WorkOf(s, d).Unhandled? <==> Escapes(s, s.out.decodeJson(d.body), d)
  {
    var decoded := s.out.decodeJson(d.body);
    if decoded.Decoded? {
      Envelope.OverflowsExactly(s.out.codec, Envelope.CONSUMER_POLICY, decoded.wire);
      UnhandledParsed(s, ParsedBody(s, decoded.wire), d);
    }
  }

  // ---------------------------------------------------------------- the store

  type Inbox = map<InboxKey, InboxRow>
  type Observations = map<Uuid, Observation>

  /** Whether `begin`, this many calls deeper than straight from `handle`, can copy the stored observations. */
  predicate Copies(out: Outside, os: Observations, deeper: nat) {
    forall e :: e in os ==> MetadataCopyable(os[e].safeMetadata, out.copyFrames - deeper)
  }

  /** From how many of the two depths a transaction can begin. */
  function Room(out: Outside, os: Observations): nat {
    if !Copies(out, os, 0) then 0 else if !Copies(out, os, 1) then 1 else 2
  }

  lemma {:induction false} CopyableFromHigher(j: Json, frames: int, more: int)
    requires Copyable(j, frames) && frames <= more
    ensures Copyable(j, more)
    decreases j
  {
    match j
    case Arr(items) =>
      forall i | 0 <= i < |items| ensures Copyable(items[i], more - 2) {
        CopyableFromHigher(items[i], frames - 2, more - 2);
      }
    case Obj(m) =>
      forall k | k in m ensures Copyable(m[k], more - 2) {
        CopyableFromHigher(m[k], frames - 2, more - 2);
      }
    case _ =>
  }

  /** What can be copied from deeper can be copied from less deep, so the room says it all. */
  lemma RoomMeans(out: Outside, os: Observations)
    ensures Room(out, os) > 0 <==> Copies(out, os, 0)
    ensures Room(out, os) > 1 <==> Copies(out, os, 1)
  {
    if Copies(out, os, 1) {
      forall e | e in os ensures MetadataCopyable(os[e].safeMetadata, out.copyFrames) {
        var m := os[e].safeMetadata;
        assert MetadataCopyable(m, out.copyFrames - 1);
        forall k | k in m ensures Copyable(m[k], out.copyFrames) {
          CopyableFromHigher(m[k], out.copyFrames - 1, out.copyFrames);
        }
      }
    }
  }

  /** How much deeper than straight from `handle` a work's transaction begins. */
  function Depth(w: Work): nat {
    if w.Refuse? && w.undecoded then 1 else 0
  }

  datatype Fault = Fault(code: string, detail: string)

  /** Injected failures: each fires once and is then cleared. */
  datatype Hooks = Hooks(failProjection: bool, poisonProjection: Option<Fault>, failQuarantine: bool,
                         crashBeforeAck: bool)

  const QUIET := Hooks(false, None, false, false)

  datatype State = State(inbox: Inbox, observations: Observations, hooks: Hooks)

  const EMPTY := State(map[], map[], QUIET)

  datatype Act = Commit | Rollback | Sent(action: BrokerAction)

  datatype Outcome = Outcome(action: BrokerAction, status: Option<InboxStatus>, written: bool, reason: string)

  /**
   How a handling ends: normally, by the crash hook, by an error nothing handles while the delivery is read, or by the
   RecursionError of a transaction that cannot begin, which nothing handles either.
   */
  datatype Ending = Returned(outcome: Outcome) | Crashed | Raised(escape: Escape) | Stuck

  datatype Handling = Handling(state: State, log: seq<Act>, ending: Ending)

  function KeyOf(s: Settings, id: Uuid): InboxKey {
    InboxKey(s.consumerName, id)
  }

  // ---------------------------------------------------------------- rows

  function FreshRow(s: Settings, h: Header, d: Delivery, now: Instant): InboxRow {
    InboxRow(s.consumerName, h.eventId, h.eventType, h.eventVersion, Processing, Some(s.processingOwner),
             Some(now + s.leaseDuration), s.handlerVersion, 1, now, now, None, None, None, None, d.stream,
             d.jetstreamSeq, h.correlationId, d.natsMsgId, Some(now))
  }

  function ReclaimedRow(s: Settings, row: InboxRow, now: Instant): InboxRow {
    row.(status := Processing, processingOwner := Some(s.processingOwner), leaseUntil := Some(now + s.leaseDuration),
         attemptCount := row.attemptCount + 1, lastReceivedAt := now, processingStartedAt := Some(now))
  }

  function ProcessedRow(row: InboxRow, now: Instant): InboxRow {
    row.(status := Processed, processedAt := Some(now), processingOwner := None, leaseUntil := None)
  }

  function QuarantinedRow(out: Outside, row: InboxRow, now: Instant, code: string, detail: string): InboxRow {
    row.(status := Quarantined, quarantinedAt := Some(now), lastErrorCode := Some(code),
         lastErrorMessage := Some(out.sanitizeError(detail)), processingOwner := None, leaseUntil := None)
  }

  // ---------------------------------------------------------------- one handling: what is decided

  /**
   The decision: roll back and store nothing, commit one row (with an observation when it is processed), raise, or be
   unable to begin.
   `hooks` are the hooks left after those that fired; `rolledBack` says whether a poisoned projection was undone first.
   */
  datatype Plan =
    | Refrain(rolledBack: bool, hooks: Hooks, outcome: Outcome)
    | Save(rolledBack: bool, hooks: Hooks, row: InboxRow, observation: Option<Observation>, outcome: Outcome)
    | Raise(escape: Escape)
    | Stall(rolledBack: bool, hooks: Hooks)

  /** Record a permanent failure under its sanitized detail, unless the event was already processed. */
  function RecordPlan(s: Settings, row: Option<InboxRow>, hooks: Hooks, d: Delivery, now: Instant, h: Header,
                      code: string, sanitized: string, rolledBack: bool): Plan
  {
    if row.Some? && row.value.status == Processed then
      Refrain(rolledBack, hooks, Outcome(Ack, Some(Processed), false, "processed_duplicate_on_reject"))
    else if hooks.failQuarantine then
      Refrain(rolledBack, hooks.(failQuarantine := false),
              Outcome(DecideRollback(true), None, false, "quarantine_persistence_failure_nak"))
    else
      var base := if row.Some? then row.value else FreshRow(s, h, d, now);
      Save(rolledBack, hooks, QuarantinedRow(s.out, base, now, code, sanitized), None,
           Outcome(DecidePostCommit(Quarantined), Some(Quarantined), false, "permanent_quarantine_ack"))
  }

  function QuarantinePlan(s: Settings, row: Option<InboxRow>, hooks: Hooks, d: Delivery, now: Instant, h: Header,
                          code: string, detail: string, rolledBack: bool): Plan
  {
    RecordPlan(s, row, hooks, d, now, h, code, s.out.sanitizeError(detail), rolledBack)
  }

  function RetryPlan(hooks: Hooks): Plan {
    Refrain(false, hooks, Outcome(DecideRollback(true), None, false, "retryable_rollback_nak"))
  }

  /** After a poisoned projection is undone, its quarantine begins a transaction one call deeper. */
  function PoisonedPlan(s: Settings, row: Option<InboxRow>, room: nat, hooks: Hooks, d: Delivery, now: Instant,
                        h: Header, code: string, detail: string): Plan
  {
    if room < 2 then Stall(true, hooks) else QuarantinePlan(s, row, hooks, d, now, h, code, detail, true)
  }

  /** Project the message and mark its row processed, in one commit. */
  function ProjectPlan(s: Settings, row: Option<InboxRow>, room: nat, hooks: Hooks, d: Delivery, now: Instant,
                       m: Message, base: InboxRow, known: bool, reason: string): Plan
  {
    if hooks.failProjection then RetryPlan(hooks.(failProjection := false))
    else if hooks.poisonProjection.Some? then
      var f := hooks.poisonProjection.value;
      PoisonedPlan(s, row, room, hooks.(poisonProjection := None), d, now, MessageHeader(m), f.code, f.detail)
    else
      Save(false, hooks, ProcessedRow(base, now), Some(Project(m, now)),
           Outcome(DecidePostCommit(Processed), Some(Processed), !known, reason))
  }

  function DuplicatePlan(s: Settings, row: InboxRow, room: nat, hooks: Hooks, d: Delivery, now: Instant, m: Message,
                         known: bool): Plan {
    var decision := DecideDuplicate(row.status, row.leaseUntil, now, s.policy);
    if !decision.rerun then
      Refrain(false, hooks, Outcome(decision.action, Some(row.status), false, decision.reason))
    else if ShouldQuarantine(Transient, row.attemptCount + 1, s.maxAttempts) then
      if hooks.failQuarantine then RetryPlan(hooks.(failQuarantine := false))
      else
        Save(false, hooks, QuarantinedRow(s.out, row, now, "MAX_DELIVER_EXCEEDED", "inbox attempts exhausted"), None,
             Outcome(DecidePostCommit(Quarantined), Some(Quarantined), false, "max_attempts_quarantine_ack"))
    else
      ProjectPlan(s, Some(row), room, hooks, d, now, m, ReclaimedRow(s, row, now), known,
                  "reclaimed_processed_ack_after_commit")
  }

  /** What a valid message asks for, once its transaction has begun. */
  function ApplyPlan(s: Settings, row: Option<InboxRow>, known: bool, room: nat, hooks: Hooks, d: Delivery,
                     now: Instant, m: Message): Plan
  {
    if row.Some? then DuplicatePlan(s, row.value, room, hooks, d, now, m, known)
    else
      ProjectPlan(s, None, room, hooks, d, now, m, FreshRow(s, MessageHeader(m), d, now), known,
                  "processed_ack_after_commit")
  }

  /** The decision depends on the event's own row, on whether its observation exists, on the room and on the hooks. */
  function PlanFor(s: Settings, row: Option<InboxRow>, known: bool, room: nat, hooks: Hooks, d: Delivery,
                   now: Instant, w: Work): Plan
  {
    match w
    case Unhandled(escape) => Raise(escape)
    case Apply(m) => if room == 0 then Stall(false, hooks) else ApplyPlan(s, row, known, room, hooks, d, now, m)
    case Refuse(h, code, detail, _) =>
      if room <= Depth(w) then Stall(false, hooks) else QuarantinePlan(s, row, hooks, d, now, h, code, detail, false)
  }

  // ---------------------------------------------------------------- one handling: what is done

  function RowAt(st: State, k: InboxKey): Option<InboxRow> {
    if k in st.inbox then Some(st.inbox[k]) else None
  }

  function EventIdOf(w: Work): Uuid {
    if w.Unhandled? then Uuid(0) else WorkHeader(w).eventId
  }

  /** The broker call at the end: only an ACK can meet the crash hook. */
  function Respond(st: State, log: seq<Act>, outcome: Outcome): Handling {
    if outcome.action == Ack && st.hooks.crashBeforeAck then
      Handling(st.(hooks := st.hooks.(crashBeforeAck := false)), log, Crashed)
    else Handling(st, log + [Sent(outcome.action)], Returned(outcome))
  }

  function Execute(st: State, k: InboxKey, plan: Plan): Handling {
    match plan
    case Refrain(rolledBack, hooks, outcome) =>
      Respond(st.(hooks := hooks), if rolledBack then [Rollback, Rollback] else [Rollback], outcome)
    case Save(rolledBack, hooks, row, observation, outcome) =>
      var observations :=
        if observation.Some? && k.eventId !in st.observations then st.observations[k.eventId := observation.value]
        else st.observations;
      Respond(State(st.inbox[k := row], observations, hooks), if rolledBack then [Rollback, Commit] else [Commit],
              outcome)
    case Raise(escape) => Handling(st, [], Raised(escape))
    case Stall(rolledBack, hooks) => Handling(st.(hooks := hooks), if rolledBack then [Rollback] else [], Stuck)
  }

  /** The decision for a work on a store. */
  function PlanOf(s: Settings, st: State, d: Delivery, now: Instant, w: Work): Plan {
    PlanFor(s, RowAt(st, KeyOf(s, EventIdOf(w))), EventIdOf(w) in st.observations, Room(s.out, st.observations),
            st.hooks, d, now, w)
  }

  function Perform(s: Settings, st: State, d: Delivery, now: Instant, w: Work): Handling {
    Execute(st, KeyOf(s, EventIdOf(w)), PlanOf(s, st, d, now, w))
  }

  // ---------------------------------------------------------------- facts about one handling

  predicate IsTerminal(row: InboxRow) {
    row.status == Processed || row.status == Quarantined
  }

  function CountCommits(log: seq<Act>): nat {
    if log == [] then 0 else CountCommits(log[1..]) + if log[0].Commit? then 1 else 0
  }

  function CountSent(log: seq<Act>): nat {
    if log == [] then 0 else CountSent(log[1..]) + if log[0].Sent? then 1 else 0
  }

  predicate Acked(h: Handling) {
    Sent(Ack) in h.log
  }

  predicate SameStore(a: State, b: State) {
    a.inbox == b.inbox && a.observations == b.observations
  }

  /** The work of a redelivery meets a row it may act on: none, a final one, or one whose lease has run out. */
  predicate LeaseOver(row: Option<InboxRow>, now: Instant) {
    row.Some? && row.value.status == Processing ==> IsLeaseExpired(row.value.leaseUntil, now)
  }

  /** What every decision respects, whatever the row, the hooks and the work. */
  ghost predicate PlanRespects(s: Settings, row: Option<InboxRow>, now: Instant, w: Work, plan: Plan) {
    match plan
    case Refrain(_, _, outcome) => outcome.action == Ack ==> row.Some? && IsTerminal(row.value)
    case Save(_, _, r, observation, outcome) =>
      && outcome.action == Ack && IsTerminal(r) && r.processingOwner.None? && r.leaseUntil.None?
      && (row.Some? ==> row.value.status != Processed)
      && (row.Some? && row.value.status == Quarantined && s.policy.AckTerminal? ==> r.status == Quarantined)
      && (observation.Some? <==> r.status == Processed)
      && (observation.Some? ==> w.Apply? && observation.value == Project(w.message, now))
    case Raise(escape) => w == Unhandled(escape)
    case Stall(_, _) => true
  }

  lemma QuarantinePlanRespects(s: Settings, row: Option<InboxRow>, hooks: Hooks, d: Delivery, now: Instant, h: Header,
                               code: string, detail: string, rolledBack: bool, w: Work)
    ensures PlanRespects(s, row, now, w, QuarantinePlan(s, row, hooks, d, now, h, code, detail, rolledBack))
  {
  }

  lemma ProjectPlanRespects(s: Settings, row: Option<InboxRow>, room: nat, hooks: Hooks, d: Delivery, now: Instant,
                            m: Message, base: InboxRow, known: bool, reason: string)
    requires row.Some? ==> row.value.status != Processed && !(row.value.status == Quarantined && s.policy.AckTerminal?)
    ensures PlanRespects(s, row, now, Apply(m), ProjectPlan(s, row, room, hooks, d, now, m, base, known, reason))
  {
    if hooks.poisonProjection.Some? {
      var f := hooks.poisonProjection.value;
      QuarantinePlanRespects(s, row, hooks.(poisonProjection := None), d, now, MessageHeader(m), f.code, f.detail, true,
                             Apply(m));
    }
  }

  lemma ApplyPlanRespects(s: Settings, row: Option<InboxRow>, known: bool, room: nat, hooks: Hooks, d: Delivery,
                          now: Instant, m: Message)
    ensures PlanRespects(s, row, now, Apply(m), ApplyPlan(s, row, known, room, hooks, d, now, m))
  {
    if row.None? {
      ProjectPlanRespects(s, row, room, hooks, d, now, m, FreshRow(s, MessageHeader(m), d, now), known,
                          "processed_ack_after_commit");
    } else if DecideDuplicate(row.value.status, row.value.leaseUntil, now, s.policy).rerun {
      ProjectPlanRespects(s, row, room, hooks, d, now, m, ReclaimedRow(s, row.value, now), known,
                          "reclaimed_processed_ack_after_commit");
    }
  }

  lemma PlansRespect(s: Settings, row: Option<InboxRow>, known: bool, room: nat, hooks: Hooks, d: Delivery,
                     now: Instant, w: Work)
    ensures PlanRespects(s, row, now, w, PlanFor(s, row, known, room, hooks, d, now, w))
  {
    match w
    case Apply(m) => ApplyPlanRespects(s, row, known, room, hooks, d, now, m);
    case Refuse(h, code, detail, _) => QuarantinePlanRespects(s, row, hooks, d, now, h, code, detail, false, w);
    case Unhandled(_) =>
  }

  /** What executing a plan may do to the store and the log. */
  ghost predicate StepRespects(s: Settings, st: State, k: InboxKey, h: Handling) {
    && (forall j :: j in st.inbox ==> j in h.state.inbox)
    && (forall j :: j in h.state.inbox && j != k ==> j in st.inbox && h.state.inbox[j] == st.inbox[j])
    && (forall e :: e in st.observations ==> e in h.state.observations && h.state.observations[e] == st.observations[e])
    && (forall e :: e in h.state.observations && e != k.eventId ==> e in st.observations)
    && (k in st.inbox && st.inbox[k].status == Processed ==> h.state.inbox[k] == st.inbox[k])
    && (k in st.inbox && st.inbox[k].status == Quarantined && s.policy.AckTerminal? ==>
          h.state.inbox[k].status == Quarantined)
    && (Acked(h) ==> k in h.state.inbox && IsTerminal(h.state.inbox[k]))
    && (h.ending.Raised? || h.ending.Stuck? || Sent(Nak) in h.log || Sent(Defer) in h.log ==> SameStore(h.state, st))
  }

  lemma RefrainingRespects(s: Settings, st: State, k: InboxKey, hooks: Hooks, log: seq<Act>, outcome: Outcome)
    requires outcome.action == Ack ==> k in st.inbox && IsTerminal(st.inbox[k])
    requires forall a :: a in log ==> !a.Sent?
    ensures StepRespects(s, st, k, Respond(st.(hooks := hooks), log, outcome))
  {
  }

  lemma SavingRespects(s: Settings, st: State, k: InboxKey, now: Instant, w: Work, plan: Plan)
    requires plan.Save? && PlanRespects(s, RowAt(st, k), now, w, plan)
    ensures StepRespects(s, st, k, Execute(st, k, plan))
  {
  }

  lemma ExecuteRespects(s: Settings, st: State, k: InboxKey, now: Instant, w: Work, plan: Plan)
    requires PlanRespects(s, RowAt(st, k), now, w, plan)
    ensures StepRespects(s, st, k, Execute(st, k, plan))
  {
    match plan
    case Refrain(rolledBack, hooks, outcome) =>
      RefrainingRespects(s, st, k, hooks, if rolledBack then [Rollback, Rollback] else [Rollback], outcome);
    case Save(_, _, _, _, _) => SavingRespects(s, st, k, now, w, plan);
    case Raise(_) =>
    case Stall(_, _) =>
  }

  /**
   One handling touches only its own event, never overwrites an observation, never touches a PROCESSED row, ACKs only
   when the committed row is final, and leaves the committed store exactly as it was when it ends in NAK, DEFER or an
   error that nothing handles.
   */
  lemma HandleRespects(s: Settings, st: State, d: Delivery, now: Instant, w: Work)
    ensures StepRespects(s, st, KeyOf(s, EventIdOf(w)), Perform(s, st, d, now, w))
  {
    var k := KeyOf(s, EventIdOf(w));
    var known, room := EventIdOf(w) in st.observations, Room(s.out, st.observations);
    PlansRespect(s, RowAt(st, k), known, room, st.hooks, d, now, w);
    ExecuteRespects(s, st, k, now, w, PlanOf(s, st, d, now, w));
  }

  /** The poison hook fires: the message is about to be projected, and no retryable failure comes first. */
  predicate Poisons(s: Settings, row: Option<InboxRow>, hooks: Hooks, now: Instant, w: Work) {
    && w.Apply? && hooks.poisonProjection.Some? && !hooks.failProjection
    && (row.Some? ==>
          && DecideDuplicate(row.value.status, row.value.leaseUntil, now, s.policy).rerun
          && !ShouldQuarantine(Transient, row.value.attemptCount + 1, s.maxAttempts))
  }

  lemma ProjectRaisesExactly(s: Settings, row: Option<InboxRow>, room: nat, hooks: Hooks, d: Delivery, now: Instant,
                             m: Message, base: InboxRow, known: bool, reason: string)
    ensures var plan := ProjectPlan(s, row, room, hooks, d, now, m, base, known, reason);
      !plan.Raise? && (plan.Stall? <==> room < 2 && hooks.poisonProjection.Some? && !hooks.failProjection)
  {
  }

  lemma ApplyRaisesExactly(s: Settings, row: Option<InboxRow>, known: bool, room: nat, hooks: Hooks, d: Delivery,
                           now: Instant, m: Message)
    ensures var plan := ApplyPlan(s, row, known, room, hooks, d, now, m);
      !plan.Raise? && (plan.Stall? <==> room < 2 && Poisons(s, row, hooks, now, Apply(m)))
  {
    if row.None? {
      ProjectRaisesExactly(s, row, room, hooks, d, now, m, FreshRow(s, MessageHeader(m), d, now), known,
                           "processed_ack_after_commit");
    } else {
      ProjectRaisesExactly(s, row, room, hooks, d, now, m, ReclaimedRow(s, row.value, now), known,
                           "reclaimed_processed_ack_after_commit");
    }
  }

  lemma PlanRaisesExactly(s: Settings, row: Option<InboxRow>, known: bool, room: nat, hooks: Hooks, d: Delivery,
                          now: Instant, w: Work)
    ensures var plan := PlanFor(s, row, known, room, hooks, d, now, w);
      && (plan.Raise? <==> w.Unhandled?)
      && (plan.Stall? <==>
            !w.Unhandled? && (room <= Depth(w) || (room < 2 && Poisons(s, row, hooks, now, w))))
  {
    if w.Apply? {
      ApplyRaisesExactly(s, row, known, room, hooks, d, now, w.message);
    }
  }

  lemma ExecuteRaisesExactly(st: State, k: InboxKey, plan: Plan)
    ensures Execute(st, k, plan).ending.Raised? <==> plan.Raise?
    ensures Execute(st, k, plan).ending.Stuck? <==> plan.Stall?
  {
  }

  /**
   A handling raises past every handler exactly when reading the delivery does, when its transaction cannot begin
   because stored metadata nests too deep to be copied, or when that is so one call deeper and a poisoned projection
   needs it.
   */
  lemma HandlingRaisesExactly(s: Settings, st: State, d: Delivery, now: Instant, w: Work)
    ensures var ending := Perform(s, st, d, now, w).ending; var room := Room(s.out, st.observations);
      && (ending.Raised? <==> w.Unhandled?)
      && (ending.Stuck? <==>
            && !w.Unhandled?
            && (room <= Depth(w) || (room < 2 && Poisons(s, RowAt(st, KeyOf(s, EventIdOf(w))), st.hooks, now, w))))
  {
    var k := KeyOf(s, EventIdOf(w));
    PlanRaisesExactly(s, RowAt(st, k), EventIdOf(w) in st.observations, Room(s.out, st.observations), st.hooks, d, now,
                      w);
    ExecuteRaisesExactly(st, k, PlanOf(s, st, d, now, w));
  }

  lemma CountsOf3(log: seq<Act>)
    requires |log| <= 3
    ensures CountCommits(log) == CountCommits(log[..if |log| > 0 then 1 else 0])
      + (if |log| > 1 && log[1].Commit? then 1 else 0) + (if |log| > 2 && log[2].Commit? then 1 else 0)
    ensures CountSent(log) == CountSent(log[..if |log| > 0 then 1 else 0])
      + (if |log| > 1 && log[1].Sent? then 1 else 0) + (if |log| > 2 && log[2].Sent? then 1 else 0)
  {
    if |log| > 0 {
      var t := log[1..];
      assert log[..1][1..] == [];
      if |t| > 0 {
        var u := t[1..];
        if |u| > 0 {
          assert u[1..] == [];
        }
      }
    }
  }

  /** One handling commits at most once and speaks to the broker at most once, and the broker call comes last. */
  lemma AtMostOneCommitAndAction(s: Settings, st: State, d: Delivery, now: Instant, w: Work)
    ensures var log := Perform(s, st, d, now, w).log;
      CountCommits(log) <= 1 && CountSent(log) <= 1 && (forall i :: 0 <= i < |log| && log[i].Sent? ==> i == |log| - 1)
  {
    ExecutedLog(st, KeyOf(s, EventIdOf(w)), PlanOf(s, st, d, now, w));
  }

  lemma ExecutedLog(st: State, k: InboxKey, plan: Plan)
    ensures var log := Execute(st, k, plan).log;
      CountCommits(log) <= 1 && CountSent(log) <= 1 && (forall i :: 0 <= i < |log| && log[i].Sent? ==> i == |log| - 1)
  {
    var log := Execute(st, k, plan).log;
    CountsOf3(log);
    if log != [] {
      assert log[..1] == [log[0]] && [log[0]][1..] == [];
    }
  }
}
