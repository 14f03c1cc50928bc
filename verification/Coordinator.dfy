/** The observation consumer: deserialize, validate, insert into the inbox, project, commit, and only then ACK. */
module Coordinator {
  import opened Wrappers
  import opened Json
  import opened Messaging
  import opened AuditTypes
  import opened InboxSpec
  import opened AuditStore
  import Envelope
  import Validation

  /**
   The whole store after one handling, which adds its log to what was there. An error while reading leaves the working
   tables as they were; a transaction that cannot begin leaves its copy of the inbox behind.
   */
  function After(before: Snapshot, h: Handling, d: Delivery): Snapshot {
    Snapshot(h.state,
             if h.ending.Raised? then before.txInbox else if h.ending.Stuck? then Some(h.state.inbox) else None,
             if h.ending.Raised? || (h.ending.Stuck? && h.log == []) then before.txObservations else None,
             before.actions + h.log,
             if h.ending.Returned? then before.transportActions + [h.ending.outcome.action]
               else before.transportActions,
             if h.ending.Returned? then Some(d) else before.lastDelivery)
  }

  function ResultOf(e: Ending): Result<Outcome, HandlerError> {
    match e
    case Returned(o) => Ok(o)
    case Crashed => Err(SimulatedCrash)
    case Raised(escape) => Err(Uncaught(escape))
    case Stuck => Err(Uncaught(RecursionError))
  }

  /** The store and the result are those of a handling. */
  predicate Ends(before: Snapshot, h: Handling, d: Delivery, r: Result<Outcome, HandlerError>, after: Snapshot) {
    after == After(before, h, d) && r == ResultOf(h.ending)
  }

  /** The whole handling of a delivery whose work is known. */
  predicate Performed(s: Settings, before: Snapshot, d: Delivery, now: Instant, w: Work,
                      r: Result<Outcome, HandlerError>, after: Snapshot)
  {
    Ends(before, Perform(s, before.st, d, now, w), d, r, after)
  }

  /** Raising past every handler while the delivery is read does nothing to the store. */
  lemma EscapingDoesNothing(s: Settings, before: Snapshot, d: Delivery, now: Instant, escape: Escape)
    ensures Performed(s, before, d, now, Unhandled(escape), Err(Uncaught(escape)), before)
  {
    assert before.actions + [] == before.actions;
  }

  /** A transaction has just begun: the working copies are the committed tables. */
  predicate JustBegun(snap: Snapshot) {
    snap.txInbox == Some(snap.st.inbox) && snap.txObservations == Some(snap.st.observations)
  }

  predicate SameRecord(a: Snapshot, b: Snapshot) {
    a.actions == b.actions && a.transportActions == b.transportActions && a.lastDelivery == b.lastDelivery
  }

  /** Only the hooks differ, and no transaction outcome is recorded yet. */
  predicate OnlyHooksDiffer(before: Snapshot, after: Snapshot) {
    after.st == before.st.(hooks := after.st.hooks) && SameRecord(before, after)
  }

  /**
   How the body of the try block ends, for the decision it comes to: with the whole step done, or raising with only a
   hook spent.
   */
  predicate Attempted(s: Settings, before: Snapshot, d: Delivery, now: Instant, m: Message, room: nat, plan: Plan,
                      r: Result<Outcome, HandlerError>, after: Snapshot)
  {
    if r.Err? && r.error.RetryableError? then
      plan == RetryPlan(after.st.hooks) && OnlyHooksDiffer(before, after)
    else if r.Err? && r.error.PoisonError? then
      && plan == PoisonedPlan(s, RowAt(before.st, KeyOf(s, m.eventId)), room, after.st.hooks, d, now, MessageHeader(m),
                              r.error.code, r.error.detail)
      && OnlyHooksDiffer(before, after)
    else
      Ends(before, Execute(before.st, KeyOf(s, m.eventId), plan), d, r, after)
  }

  /** The decision for a valid message, seen from a snapshot whose transaction has begun. */
  function ApplyPlanOn(s: Settings, st: State, room: nat, d: Delivery, now: Instant, m: Message): Plan {
    ApplyPlan(s, RowAt(st, KeyOf(s, m.eventId)), m.eventId in st.observations, room, st.hooks, d, now, m)
  }

  /** A quarantine decided after a rolled-back projection is the same quarantine with one more rollback in front. */
  lemma RolledBackFirst(s: Settings, st: State, k: InboxKey, d: Delivery, now: Instant, h: Header, code: string,
                        detail: string)
    ensures var first := Execute(st, k, QuarantinePlan(s, RowAt(st, k), st.hooks, d, now, h, code, detail, true));
      var plain := Execute(st, k, QuarantinePlan(s, RowAt(st, k), st.hooks, d, now, h, code, detail, false));
      first.state == plain.state && first.ending == plain.ending && first.log == [InboxSpec.Rollback] + plain.log
  {
  }

  /** The hooks a plan leaves are the ones it was given to leave. */
  lemma HooksOfExecute(st: State, hooks: Hooks, k: InboxKey, plan: Plan)
    requires !plan.Raise?
    ensures Execute(st.(hooks := hooks), k, plan) == Execute(st, k, plan)
  {
  }

  /** A transaction has begun on this store: its working copies are there. */
  function Begun(before: Snapshot): Snapshot {
    before.(txInbox := Some(before.st.inbox), txObservations := Some(before.st.observations))
  }

  lemma PerformedApply(s: Settings, before: Snapshot, d: Delivery, now: Instant, m: Message, room: nat, plan: Plan,
                       r: Result<Outcome, HandlerError>, after: Snapshot)
    requires room == Room(s.out, before.st.observations) > 0 && plan == ApplyPlanOn(s, before.st, room, d, now, m)
    requires Ends(before, Execute(before.st, KeyOf(s, m.eventId), plan), d, r, after)
    ensures Performed(s, before, d, now, Apply(m), r, after)
  {
  }

  lemma PerformedStuck(s: Settings, before: Snapshot, d: Delivery, now: Instant, w: Work)
    requires !w.Unhandled? && Room(s.out, before.st.observations) <= Depth(w)
    ensures Performed(s, before, d, now, w, Err(Uncaught(RecursionError)), before.(txInbox := Some(before.st.inbox)))
  {
    assert before.actions + [] == before.actions;
  }

  lemma PerformedRefuse(s: Settings, before: Snapshot, d: Delivery, now: Instant, w: Work, plan: Plan,
                        r: Result<Outcome, HandlerError>, after: Snapshot)
    requires w.Refuse? && Depth(w) < Room(s.out, before.st.observations)
    requires plan == QuarantinePlan(s, RowAt(before.st, KeyOf(s, w.header.eventId)), before.st.hooks, d, now, w.header,
                                    w.code, w.detail, false)
    requires Ends(before, Execute(before.st, KeyOf(s, w.header.eventId), plan), d, r, after)
    ensures Performed(s, before, d, now, w, r, after)
  {
  }

  lemma DoneAttempt(s: Settings, before: Snapshot, d: Delivery, now: Instant, m: Message, room: nat, plan: Plan,
                    r: Result<Outcome, HandlerError>, after: Snapshot)
    requires plan == ApplyPlanOn(s, before.st, room, d, now, m)
    requires Attempted(s, Begun(before), d, now, m, room, plan, r, after)
    requires r.Err? ==> !r.error.RetryableError? && !r.error.PoisonError?
    ensures Ends(before, Execute(before.st, KeyOf(s, m.eventId), plan), d, r, after)
  {
    ApplyRaisesExactly(s, RowAt(before.st, KeyOf(s, m.eventId)), m.eventId in before.st.observations, room,
                       before.st.hooks, d, now, m);
    NeverBeginsTwice(before, Execute(before.st, KeyOf(s, m.eventId), plan), d);
  }

  lemma StuckAfterRollback(s: Settings, before: Snapshot, mid: Snapshot, k: InboxKey, d: Delivery, now: Instant,
                           w: Work, r: Result<Outcome, HandlerError>, after: Snapshot)
    requires mid == before.(txInbox := None, txObservations := None, actions := before.actions + [InboxSpec.Rollback])
    requires w.Refuse? && Room(s.out, before.st.observations) <= Depth(w) && Performed(s, mid, d, now, w, r, after)
    ensures Ends(before, Execute(before.st, k, Stall(true, before.st.hooks)), d, r, after)
  {
    assert mid.actions + [] == mid.actions;
  }

  lemma RecordedAfterRollback(s: Settings, before: Snapshot, mid: Snapshot, d: Delivery, now: Instant, w: Work,
                              r: Result<Outcome, HandlerError>, after: Snapshot)
    requires mid == before.(txInbox := None, txObservations := None, actions := before.actions + [InboxSpec.Rollback])
    requires w.Refuse? && Depth(w) < Room(s.out, before.st.observations) && Performed(s, mid, d, now, w, r, after)
    ensures var k := KeyOf(s, w.header.eventId);
      var plan := QuarantinePlan(s, RowAt(before.st, k), before.st.hooks, d, now, w.header, w.code, w.detail, true);
      Ends(before, Execute(before.st, k, plan), d, r, after)
  {
    var k := KeyOf(s, w.header.eventId);
    RolledBackFirst(s, before.st, k, d, now, w.header, w.code, w.detail);
    var plain := Execute(before.st, k, QuarantinePlan(s, RowAt(before.st, k), before.st.hooks, d, now, w.header, w.code,
                                                      w.detail, false));
    assert Perform(s, mid.st, d, now, w) == plain;
    assert before.actions + ([InboxSpec.Rollback] + plain.log) == mid.actions + plain.log;
  }

  lemma NeverBeginsTwice(before: Snapshot, h: Handling, d: Delivery)
    requires !h.ending.Raised? && (h.ending.Stuck? ==> h.log != [])
    ensures After(Begun(before), h, d) == After(before, h, d)
  {
  }

  lemma RetriedAttempt(before: Snapshot, tried: Snapshot, k: InboxKey, plan: Plan, d: Delivery,
                       r: Result<Outcome, HandlerError>, after: Snapshot)
    requires plan == RetryPlan(tried.st.hooks) && OnlyHooksDiffer(before, tried)
    requires var nak := Outcome(Messaging.Nak, None, false, "retryable_rollback_nak");
      Ends(tried, Respond(tried.st, [InboxSpec.Rollback], nak), d, r, after)
    ensures Ends(before, Execute(before.st, k, plan), d, r, after)
  {
  }

  lemma PoisonedAttempt(before: Snapshot, tried: Snapshot, k: InboxKey, plan: Plan, d: Delivery,
                        r: Result<Outcome, HandlerError>, after: Snapshot)
    requires !plan.Raise? && OnlyHooksDiffer(before, tried)
    requires plan.Stall? ==> plan.rolledBack
    requires Ends(tried, Execute(tried.st, k, plan), d, r, after)
    ensures Ends(before, Execute(before.st, k, plan), d, r, after)
  {
    HooksOfExecute(before.st, tried.st.hooks, k, plan);
    assert tried.st == before.st.(hooks := tried.st.hooks);
  }

  // ---------------------------------------------------------------- the tails of the try blocks, over snapshots

  lemma KnownTail(s: Settings, before: Snapshot, k: InboxKey, d: Delivery, now: Instant, h: Header, code: string,
                  sanitized: string, r: Result<Outcome, HandlerError>, after: Snapshot)
    requires k in before.st.inbox && before.st.inbox[k].status == Processed
    requires var outcome := Outcome(Messaging.Ack, Some(Processed), false, "processed_duplicate_on_reject");
      Ends(Begun(before), Respond(before.st, [InboxSpec.Rollback], outcome), d, r, after)
    ensures var plan := RecordPlan(s, RowAt(before.st, k), before.st.hooks, d, now, h, code, sanitized, false);
      Ends(before, Execute(before.st, k, plan), d, r, after)
  {
  }

  lemma FailedTail(s: Settings, before: Snapshot, mid: Snapshot, k: InboxKey, d: Delivery, now: Instant, h: Header,
                   code: string, sanitized: string, r: Result<Outcome, HandlerError>, after: Snapshot)
    requires RowAt(before.st, k).Some? ==> before.st.inbox[k].status != Processed
    requires before.st.hooks.failQuarantine && OnlyHooksDiffer(before, mid)
    requires mid.st.hooks == before.st.hooks.(failQuarantine := false)
    requires var nak := Outcome(Messaging.Nak, None, false, "quarantine_persistence_failure_nak");
      Ends(mid, Respond(mid.st, [InboxSpec.Rollback], nak), d, r, after)
    ensures var plan := RecordPlan(s, RowAt(before.st, k), before.st.hooks, d, now, h, code, sanitized, false);
      Ends(before, Execute(before.st, k, plan), d, r, after)
  {
  }

  /** The working inbox once the header's row is in it. */
  function WithRow(s: Settings, inbox: Inbox, k: InboxKey, h: Header, d: Delivery, now: Instant): Inbox {
    if k in inbox then inbox else inbox[k := FreshRow(s, h, d, now)]
  }

  lemma RecordedTail(s: Settings, before: Snapshot, mid: Snapshot, d: Delivery, now: Instant, h: Header, code: string,
                     sanitized: string, r: Result<Outcome, HandlerError>, after: Snapshot)
    requires var k := KeyOf(s, h.eventId); k in before.st.inbox ==> before.st.inbox[k].status != Processed
    requires !before.st.hooks.failQuarantine
    requires var k := KeyOf(s, h.eventId); var work := WithRow(s, before.st.inbox, k, h, d, now);
      mid == Begun(before).(txInbox := Some(work[k := QuarantinedRow(s.out, work[k], now, code, sanitized)]))
    requires var st := State(mid.txInbox.value, mid.txObservations.value, mid.st.hooks);
      var outcome := Outcome(DecidePostCommit(Quarantined), Some(Quarantined), false, "permanent_quarantine_ack");
      Ends(mid, Respond(st, [InboxSpec.Commit], outcome), d, r, after)
    ensures var k := KeyOf(s, h.eventId);
      var plan := RecordPlan(s, RowAt(before.st, k), before.st.hooks, d, now, h, code, sanitized, false);
      Ends(before, Execute(before.st, k, plan), d, r, after)
  {
    var k := KeyOf(s, h.eventId);
    var work := WithRow(s, before.st.inbox, k, h, d, now);
    var row := QuarantinedRow(s.out, work[k], now, code, sanitized);
    assert work[k := row] == before.st.inbox[k := row];
  }

  lemma RetryTail(s: Settings, before: Snapshot, d: Delivery, now: Instant, m: Message, room: nat, base: InboxRow,
                  known: bool, reason: string, r: Result<Outcome, HandlerError>, after: Snapshot)
    requires before.st.hooks.failProjection && r.Err? && r.error.RetryableError?
    requires OnlyHooksDiffer(before, after) && after.st.hooks == before.st.hooks.(failProjection := false)
    ensures Attempted(s, before, d, now, m, room,
                      ProjectPlan(s, RowAt(before.st, KeyOf(s, m.eventId)), room, before.st.hooks, d, now, m, base,
                                  known, reason), r, after)
  {
  }

  lemma PoisonTail(s: Settings, before: Snapshot, d: Delivery, now: Instant, m: Message, room: nat, base: InboxRow,
                   known: bool, reason: string, r: Result<Outcome, HandlerError>, after: Snapshot)
    requires !before.st.hooks.failProjection && before.st.hooks.poisonProjection.Some?
    requires var f := before.st.hooks.poisonProjection.value; r == Err(PoisonError(f.code, f.detail))
    requires OnlyHooksDiffer(before, after) && after.st.hooks == before.st.hooks.(poisonProjection := None)
    ensures Attempted(s, before, d, now, m, room,
                      ProjectPlan(s, RowAt(before.st, KeyOf(s, m.eventId)), room, before.st.hooks, d, now, m, base,
                                  known, reason), r, after)
  {
  }

  /** The working tables once the message is projected and its row marked. */
  predicate Projecting(s: Settings, before: Snapshot, m: Message, now: Instant, base: InboxRow, mid: Snapshot) {
    var k, os := KeyOf(s, m.eventId), before.st.observations;
    && mid.st == before.st && SameRecord(before, mid)
    && mid.txInbox == Some(before.st.inbox[k := base][k := ProcessedRow(base, now)])
    && mid.txObservations == Some(if m.eventId in os then os else os[m.eventId := Project(m, now)])
  }

  lemma SuccessTail(s: Settings, before: Snapshot, mid: Snapshot, d: Delivery, now: Instant, m: Message, room: nat,
                    base: InboxRow, known: bool, reason: string, r: Result<Outcome, HandlerError>, after: Snapshot)
    requires !before.st.hooks.failProjection && before.st.hooks.poisonProjection.None?
    requires known == (m.eventId in before.st.observations) && Projecting(s, before, m, now, base, mid)
    requires var done := State(mid.txInbox.value, mid.txObservations.value, mid.st.hooks);
      Ends(mid, Respond(done, [InboxSpec.Commit], Outcome(Messaging.Ack, Some(Processed), !known, reason)), d, r, after)
    ensures Attempted(s, before, d, now, m, room,
                      ProjectPlan(s, RowAt(before.st, KeyOf(s, m.eventId)), room, before.st.hooks, d, now, m, base,
                                  known, reason), r, after)
  {
    var k := KeyOf(s, m.eventId);
    assert before.st.inbox[k := base][k := ProcessedRow(base, now)] == before.st.inbox[k := ProcessedRow(base, now)];
  }

  class ObservationConsumerCoordinator {
    const s: Settings
    const store: MemoryAuditStore
    const transport: RecordingTransport

    ghost predicate Wired() {
      transport.store == store
    }

    constructor (s: Settings, store: MemoryAuditStore)
      ensures this.s == s && this.store == store && Wired()
    {
      this.s := s;
      this.store := store;
      this.transport := new RecordingTransport(store);
    }

    /** One delivery: exactly the step the specification describes for what reading it comes to. */
    method Handle(d: Delivery, now: Instant) returns (r: Result<Outcome, HandlerError>)
      requires Wired()
      modifies store
      ensures Performed(s, old(store.Snap()), d, now, WorkOf(s, d), r, store.Snap())
    {
      var decoded := s.out.decodeJson(d.body);
      match decoded
      case NestedTooDeep =>
        EscapingDoesNothing(s, store.Snap(), d, now, RecursionError);
        r := Err(Uncaught(RecursionError));
      case NotAnObject =>
        EscapingDoesNothing(s, store.Snap(), d, now, AttributeError);
        r := Err(Uncaught(AttributeError));
      case NotJson => r := QuarantineDeserializePoison(d, now);
      case Decoded(wire) => r := HandleParsed(d, ParsedBody(s, wire), now, WorkOf(s, d));
    }

    /** What deserialization returned or raised; only the overflow is not caught. */
    method HandleParsed(d: Delivery, parsed: Result<Envelope.EventEnvelope, Envelope.EnvelopeError>, now: Instant,
                        ghost w: Work)
      returns (r: Result<Outcome, HandlerError>)
      requires Wired() && w == WorkOfParsed(s, parsed, d)
      modifies store
      ensures Performed(s, old(store.Snap()), d, now, w, r, store.Snap())
    {
      match parsed
      case Err(IntOverflow) =>
        EscapingDoesNothing(s, store.Snap(), d, now, OverflowError);
        r := Err(Uncaught(OverflowError));
      case Err(_) => r := QuarantineDeserializePoison(d, now);
      case Ok(e) => r := HandleEnvelope(d, e, now, w);
    }

    /** Validate, then quarantine or process; a RecursionError in the metadata scan is not caught. */
    method HandleEnvelope(d: Delivery, e: Envelope.EventEnvelope, now: Instant, ghost w: Work)
      returns (r: Result<Outcome, HandlerError>)
      requires Wired() && w == WorkOfEnvelope(s, e, d)
      modifies store
      ensures Performed(s, old(store.Snap()), d, now, w, r, store.Snap())
    {
      var validated := Validation.ValidateA2Delivery(s.out, s.contract, e, d);
      r := HandleValidated(d, e, validated, now, w);
    }

    method HandleValidated(d: Delivery, e: Envelope.EventEnvelope, validated: Result<Message, Validation.Problem>,
                           now: Instant, ghost w: Work)
      returns (r: Result<Outcome, HandlerError>)
      requires Wired() && w == WorkOfValidated(e, validated)
      modifies store
      ensures Performed(s, old(store.Snap()), d, now, w, r, store.Snap())
    {
      match validated
      case Err(TooDeep) =>
        EscapingDoesNothing(s, store.Snap(), d, now, RecursionError);
        r := Err(Uncaught(RecursionError));
      case Err(Rejection(code, detail)) => r := QuarantinePermanent(d, EnvelopeHeader(e), now, code, detail, w, 0);
      case Ok(m) => r := ProcessValidated(d, m, now);
    }

    method QuarantineDeserializePoison(d: Delivery, now: Instant) returns (r: Result<Outcome, HandlerError>)
      requires Wired()
      modifies store
      ensures Performed(s, old(store.Snap()), d, now, PoisonWork(s, d), r, store.Snap())
    {
      var header := Header(PoisonEventId(s.out, d), s.contract.eventType, s.contract.eventVersion, None);
      r := QuarantinePermanent(d, header, now, "DESERIALIZE_FAILURE", "envelope could not be deserialized",
                               PoisonWork(s, d), 1);
    }

    /** Roll back and NAK. */
    method RollbackAndNak(d: Delivery, reason: string) returns (r: Result<Outcome, HandlerError>)
      requires Wired()
      modifies store
      ensures var before := old(store.Snap());
        Ends(before, Respond(before.st, [InboxSpec.Rollback], Outcome(Messaging.Nak, None, false, reason)), d, r,
             store.Snap())
    {
      store.Rollback();
      var action := DecideRollback(true);
      var crashed := ApplyTransport(action, d);
      r := Ok(Outcome(action, None, false, reason));
    }

    /** The transaction begins before the try block: when the copy raises, nothing here catches it. */
    method ProcessValidated(d: Delivery, m: Message, now: Instant) returns (r: Result<Outcome, HandlerError>)
      requires Wired()
      modifies store
      ensures Performed(s, old(store.Snap()), d, now, Apply(m), r, store.Snap())
    {
      ghost var before := store.Snap();
      ghost var room := Room(s.out, before.st.observations);
      RoomMeans(s.out, before.st.observations);
      var raised := store.Begin(s.out, 0);
      if raised {
        PerformedStuck(s, before, d, now, Apply(m));
        return Err(Uncaught(RecursionError));
      }
      r := Process(d, m, now, before, room);
      PerformedApply(s, before, d, now, m, room, ApplyPlanOn(s, before.st, room, d, now, m), r, store.Snap());
    }

    /** The try block and its handlers. */
    method Process(d: Delivery, m: Message, now: Instant, ghost before: Snapshot, ghost room: nat)
      returns (r: Result<Outcome, HandlerError>)
      requires Wired() && store.Snap() == Begun(before) && room == Room(s.out, before.st.observations) > 0
      modifies store
      ensures Ends(before, Execute(before.st, KeyOf(s, m.eventId), ApplyPlanOn(s, before.st, room, d, now, m)), d, r,
                   store.Snap())
    {
      ghost var k, plan := KeyOf(s, m.eventId), ApplyPlanOn(s, before.st, room, d, now, m);
      r := TryProcess(d, m, now, room);
      ghost var tried := store.Snap();
      if r.Err? && r.error.RetryableError? {
        r := RollbackAndNak(d, "retryable_rollback_nak");
        RetriedAttempt(before, tried, k, plan, d, r, store.Snap());
      } else if r.Err? && r.error.PoisonError? {
        r := RollbackAndQuarantine(d, MessageHeader(m), now, r.error.code, r.error.detail, room, plan);
        PoisonedAttempt(before, tried, k, plan, d, r, store.Snap());
      } else {
        DoneAttempt(s, before, d, now, m, room, plan, r, store.Snap());
      }
    }

    /** Undo a poisoned projection, then quarantine the event in a transaction of its own, one call deeper. */
    method RollbackAndQuarantine(d: Delivery, h: Header, now: Instant, code: string, detail: string, ghost room: nat,
                                 ghost plan: Plan)
      returns (r: Result<Outcome, HandlerError>)
      requires Wired() && room == Room(s.out, store.observations)
      requires var st := store.Snap().st;
        plan == PoisonedPlan(s, RowAt(st, KeyOf(s, h.eventId)), room, st.hooks, d, now, h, code, detail)
      modifies store
      ensures var before := old(store.Snap());
        Ends(before, Execute(before.st, KeyOf(s, h.eventId), plan), d, r, store.Snap())
    {
      ghost var before, w := store.Snap(), Refuse(h, code, detail, true);
      store.Rollback();
      ghost var mid := store.Snap();
      r := QuarantinePermanent(d, h, now, code, detail, w, 1);
      if room < 2 {
        StuckAfterRollback(s, before, mid, KeyOf(s, h.eventId), d, now, w, r, store.Snap());
      } else {
        RecordedAfterRollback(s, before, mid, d, now, w, r, store.Snap());
      }
    }

    /** The body of the try block. */
    method TryProcess(d: Delivery, m: Message, now: Instant, ghost room: nat) returns (r: Result<Outcome, HandlerError>)
      requires Wired() && JustBegun(store.Snap())
      modifies store
      ensures var before := old(store.Snap());
        Attempted(s, before, d, now, m, room, ApplyPlanOn(s, before.st, room, d, now, m), r, store.Snap())
    {
      var inserted := store.TryInsertReceived(s, MessageHeader(m), d, now);
      if inserted.None? {
        r := HandleDuplicate(d, m, now, room);
      } else {
        r := Complete(d, m, now, room, inserted.value, store.Snap().st.inbox, "processed_ack_after_commit");
      }
    }

    /** Project, mark processed, commit, ACK: the tail shared by a first delivery and a reclaimed one. */
    method Complete(d: Delivery, m: Message, now: Instant, ghost room: nat, ghost base: InboxRow,
                    ghost committed: Inbox, reason: string)
      returns (r: Result<Outcome, HandlerError>)
      requires Wired() && committed == store.inbox
      requires store.txInbox == Some(committed[KeyOf(s, m.eventId) := base])
        && store.txObservations == Some(store.observations)
      modifies store
      ensures var before := old(store.Snap());
        Attempted(s, before, d, now, m, room,
                  ProjectPlan(s, RowAt(before.st, KeyOf(s, m.eventId)), room, before.st.hooks, d, now, m, base,
                              m.eventId in before.st.observations, reason), r, store.Snap())
    {
      ghost var before := store.Snap();
      ghost var known := m.eventId in before.st.observations;
      var written := store.InsertIfAbsent(Project(m, now));
      if written.Err? {
        r := Err(written.error);
        if before.st.hooks.failProjection {
          RetryTail(s, before, d, now, m, room, base, known, reason, r, store.Snap());
        } else {
          PoisonTail(s, before, d, now, m, room, base, known, reason, r, store.Snap());
        }
        return;
      }
      store.MarkProcessed(KeyOf(s, m.eventId), now);
      ghost var mid := store.Snap();
      r := CommitAndAnswer(d, Processed, written.value, reason);
      SuccessTail(s, before, mid, d, now, m, room, base, known, reason, r, store.Snap());
    }

    /** Commit the working tables, and only then tell the broker what the committed status asks for. */
    method CommitAndAnswer(d: Delivery, committed: InboxStatus, written: bool, reason: string)
      returns (r: Result<Outcome, HandlerError>)
      requires Wired() && store.InTransaction()
      modifies store
      ensures var before := old(store.Snap());
        var st := State(before.txInbox.value, before.txObservations.value, before.st.hooks);
        var outcome := Outcome(DecidePostCommit(committed), Some(committed), written, reason);
        Ends(before, Respond(st, [InboxSpec.Commit], outcome), d, r, store.Snap())
    {
      store.Commit();
      var action := DecidePostCommit(committed);
      var crashed := ApplyTransport(action, d);
      r := if crashed then Err(SimulatedCrash) else Ok(Outcome(action, Some(committed), written, reason));
    }

    method HandleDuplicate(d: Delivery, m: Message, now: Instant, ghost room: nat)
      returns (r: Result<Outcome, HandlerError>)
      requires Wired() && JustBegun(store.Snap())
      modifies store
      ensures var before := old(store.Snap()); var after := store.Snap();
        if KeyOf(s, m.eventId) in before.st.inbox then
          Attempted(s, before, d, now, m, room, ApplyPlanOn(s, before.st, room, d, now, m), r, after)
        else r.Err? && r.error.RetryableError? && after == before
    {
      var key := KeyOf(s, m.eventId);
      var existing := store.LoadExisting(key);
      if existing.None? {
        return Err(RetryableError("DB_SERIALIZATION_FAILURE", "inbox conflict without existing row"));
      }
      var row := existing.value;
      var decision := DecideDuplicate(row.status, row.leaseUntil, now, s.policy);
      if !decision.rerun {
        r := AnswerKnown(d, decision.action, row.status, decision.reason);
        return;
      }
      var nextAttempts := row.attemptCount + 1;
      if ShouldQuarantine(Transient, nextAttempts, s.maxAttempts) {
        r := Exhaust(d, m, now, room);
        return;
      }
      store.ReclaimProcessing(s, key, now);
      r := Complete(d, m, now, room, ReclaimedRow(s, row, now), store.Snap().st.inbox,
                    "reclaimed_processed_ack_after_commit");
    }

    /** Nothing to do for a known event: roll back and answer the broker. */
    method AnswerKnown(d: Delivery, action: BrokerAction, status: InboxStatus, reason: string)
      returns (r: Result<Outcome, HandlerError>)
      requires Wired()
      modifies store
      ensures var before := old(store.Snap());
        Ends(before, Respond(before.st, [InboxSpec.Rollback], Outcome(action, Some(status), false, reason)), d, r,
             store.Snap())
    {
      store.Rollback();
      var crashed := ApplyTransport(action, d);
      r := if crashed then Err(SimulatedCrash) else Ok(Outcome(action, Some(status), false, reason));
    }

    /** The attempts are used up: quarantine the row, commit, ACK. */
    method Exhaust(d: Delivery, m: Message, now: Instant, ghost room: nat) returns (r: Result<Outcome, HandlerError>)
      requires Wired() && JustBegun(store.Snap()) && KeyOf(s, m.eventId) in store.inbox
      requires var row := store.inbox[KeyOf(s, m.eventId)];
        && DecideDuplicate(row.status, row.leaseUntil, now, s.policy).rerun
        && ShouldQuarantine(Transient, row.attemptCount + 1, s.maxAttempts)
      modifies store
      ensures var before := old(store.Snap());
        Attempted(s, before, d, now, m, room, ApplyPlanOn(s, before.st, room, d, now, m), r, store.Snap())
    {
      var marked := store.MarkQuarantined(s.out, KeyOf(s, m.eventId), now, "MAX_DELIVER_EXCEEDED",
                                          "inbox attempts exhausted");
      if marked.Err? {
        return Err(marked.error);
      }
      r := CommitAndAnswer(d, marked.value.status, false, "max_attempts_quarantine_ack");
    }

    /** Called this much deeper than straight from `handle`; a copy that raises is caught by nothing. */
    method QuarantinePermanent(d: Delivery, h: Header, now: Instant, code: string, detail: string, ghost w: Work,
                               deeper: nat)
      returns (r: Result<Outcome, HandlerError>)
      requires Wired() && w.Refuse? && w == Refuse(h, code, detail, w.undecoded) && deeper == Depth(w)
      modifies store
      ensures Performed(s, old(store.Snap()), d, now, w, r, store.Snap())
    {
      ghost var before := store.Snap();
      RoomMeans(s.out, before.st.observations);
      var sanitized := s.out.sanitizeError(detail);
      var raised := store.Begin(s.out, deeper);
      if raised {
        PerformedStuck(s, before, d, now, w);
        return Err(Uncaught(RecursionError));
      }
      ghost var plan := QuarantinePlan(s, RowAt(before.st, KeyOf(s, h.eventId)), before.st.hooks, d, now, h, code,
                                       detail, false);
      r := RecordQuarantine(d, h, now, code, sanitized, before, plan);
      PerformedRefuse(s, before, d, now, w, plan, r, store.Snap());
    }

    /** The try block of a permanent quarantine, and the answer after it. */
    method RecordQuarantine(d: Delivery, h: Header, now: Instant, code: string, sanitized: string,
                            ghost before: Snapshot, ghost plan: Plan)
      returns (r: Result<Outcome, HandlerError>)
      requires Wired() && store.Snap() == Begun(before)
      requires var row := RowAt(before.st, KeyOf(s, h.eventId));
        plan == RecordPlan(s, row, before.st.hooks, d, now, h, code, sanitized, false)
      modifies store
      ensures Ends(before, Execute(before.st, KeyOf(s, h.eventId), plan), d, r, store.Snap())
    {
      var key := KeyOf(s, h.eventId);
      var inserted := store.TryInsertReceived(s, h, d, now);
      if inserted.None? {
        var existing := store.LoadExisting(key);
        if existing.Some? && existing.value.status == Processed {
          r := AnswerKnown(d, Messaging.Ack, Processed, "processed_duplicate_on_reject");
          KnownTail(s, before, key, d, now, h, code, sanitized, r, store.Snap());
          return;
        }
      }
      var marked := store.MarkQuarantined(s.out, key, now, code, sanitized);
      ghost var mid := store.Snap();
      if marked.Err? {
        r := RollbackAndNak(d, "quarantine_persistence_failure_nak");
        FailedTail(s, before, mid, key, d, now, h, code, sanitized, r, store.Snap());
        return;
      }
      r := CommitAndAnswer(d, marked.value.status, false, "permanent_quarantine_ack");
      RecordedTail(s, before, mid, d, now, h, code, sanitized, r, store.Snap());
    }

    method ApplyTransport(action: BrokerAction, d: Delivery) returns (crashed: bool)
      requires Wired()
      modifies store
      ensures var before := old(store.Snap());
        && crashed == (action == Messaging.Ack && before.st.hooks.crashBeforeAck)
        && store.Snap() == if crashed then before.(st := before.st.(hooks := before.st.hooks.(crashBeforeAck := false)))
                           else Recorded(before, action, d)
    {
      crashed := false;
      if action == Messaging.Ack {
        crashed := transport.Ack(d);
      } else if action == Messaging.Nak {
        transport.Nak(d);
      } else {
        transport.Defer(d);
      }
    }
  }
}
