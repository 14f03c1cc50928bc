/**
 The in-memory store, its transactions and fault hooks, and the transport that records broker actions in the same log.
 */
module AuditStore {
  import opened Wrappers
  import opened Json
  import opened Messaging
  import opened AuditTypes
  import opened InboxSpec

  /** What a handler may raise. */
  datatype HandlerError =
    | RetryableError(code: string, detail: string)
    | PoisonError(code: string, detail: string)
    | SimulatedCrash
    | Uncaught(escape: Escape)

  /** All fields of the store at one moment. */
  datatype Snapshot = Snapshot(
    st: State, txInbox: Option<Inbox>, txObservations: Option<Observations>, actions: seq<Act>,
    transportActions: seq<BrokerAction>, lastDelivery: Option<Delivery>)

  class MemoryAuditStore {
    var inbox: Inbox
    var observations: Observations
    var txInbox: Option<Inbox>
    var txObservations: Option<Observations>
    var actions: seq<Act>
    var transportActions: seq<BrokerAction>
    var lastDelivery: Option<Delivery>
    var failNextProjection: bool
    var poisonNextProjection: Option<Fault>
    var failNextQuarantine: bool
    var crashBeforeAck: bool

    ghost function Snap(): Snapshot
      reads this
    {
      Snapshot(State(inbox, observations,
                     Hooks(failNextProjection, poisonNextProjection, failNextQuarantine, crashBeforeAck)),
               txInbox, txObservations, actions, transportActions, lastDelivery)
    }

    ghost predicate InTransaction()
      reads this
    {
      txInbox.Some? && txObservations.Some?
    }

    constructor ()
      ensures Snap() == Snapshot(EMPTY, None, None, [], [], None)
    {
      inbox, observations := map[], map[];
      txInbox, txObservations := None, None;
      actions, transportActions, lastDelivery := [], [], None;
      failNextProjection, poisonNextProjection, failNextQuarantine, crashBeforeAck := false, None, false, false;
    }

    /** Called this much deeper than straight from `handle`; the copy of the observations may run out of calls. */
    method Begin(out: Outside, deeper: nat) returns (raised: bool)
      modifies this
      ensures raised == !Copies(out, old(observations), deeper)
      ensures Snap() == old(Snap()).(txInbox := Some(old(inbox)),
                                     txObservations := if raised then old(txObservations) else Some(old(observations)))
    {
      txInbox := Some(inbox);
      raised := !Copies(out, observations, deeper);
      if !raised {
        txObservations := Some(observations);
      }
    }

    method Commit()
      requires InTransaction()
      modifies this
      ensures Snap() == old(Snap()).(st :=
            old(Snap()).st.(inbox := old(txInbox).value, observations := old(txObservations).value),
                                     txInbox := None, txObservations := None, actions :=
                                       old(actions) + [InboxSpec.Commit])
    {
      inbox := txInbox.value;
      observations := txObservations.value;
      txInbox := None;
      txObservations := None;
      actions := actions + [InboxSpec.Commit];
    }

    method Rollback()
      modifies this
      ensures Snap() == old(Snap()).(txInbox := None, txObservations := None,
                                     actions := old(actions) + [InboxSpec.Rollback])
    {
      txInbox := None;
      txObservations := None;
      actions := actions + [InboxSpec.Rollback];
    }

    /** Insert a PROCESSING row under (consumer, event id), or None when the key is taken. */
    method TryInsertReceived(s: Settings, h: Header, d: Delivery, now: Instant) returns (inserted: Option<InboxRow>)
      requires InTransaction()
      modifies this
      ensures var key := KeyOf(s, h.eventId); var working := old(txInbox).value;
        && inserted == (if key in working then None else Some(FreshRow(s, h, d, now)))
        && Snap() == old(Snap()).(txInbox :=
              Some(if key in working then working else working[key := FreshRow(s, h, d, now)]))
    {
      var key := KeyOf(s, h.eventId);
      if key in txInbox.value {
        return None;
      }
      var row := FreshRow(s, h, d, now);
      txInbox := Some(txInbox.value[key := row]);
      inserted := Some(row);
    }

    method LoadExisting(key: InboxKey) returns (row: Option<InboxRow>)
      requires InTransaction()
      ensures row == if key in txInbox.value then Some(txInbox.value[key]) else None
    {
      row := if key in txInbox.value then Some(txInbox.value[key]) else None;
    }

    method ReclaimProcessing(s: Settings, key: InboxKey, now: Instant)
      requires InTransaction() && key in txInbox.value
      modifies this
      ensures Snap() == old(Snap()).(txInbox :=
            Some(old(txInbox).value[key := ReclaimedRow(s, old(txInbox).value[key], now)]))
    {
      var row := txInbox.value[key];
      row := row.(status := Processing);
      row := row.(processingOwner := Some(s.processingOwner));
      row := row.(leaseUntil := Some(now + s.leaseDuration));
      row := row.(attemptCount := row.attemptCount + 1);
      row := row.(lastReceivedAt := now);
      row := row.(processingStartedAt := Some(now));
      txInbox := Some(txInbox.value[key := row]);
    }

    method MarkProcessed(key: InboxKey, now: Instant)
      requires InTransaction() && key in txInbox.value
      modifies this
      ensures Snap() == old(Snap()).(txInbox :=
            Some(old(txInbox).value[key := ProcessedRow(old(txInbox).value[key], now)]))
    {
      var row := txInbox.value[key];
      row := row.(status := Processed);
      row := row.(processedAt := Some(now));
      row := row.(processingOwner := None);
      row := row.(leaseUntil := None);
      txInbox := Some(txInbox.value[key := row]);
    }

    /** The quarantine hook fires before anything is written. */
    method MarkQuarantined(out: Outside, key: InboxKey, now: Instant, code: string, detail: string)
      returns (r: Result<InboxRow, HandlerError>)
      requires InTransaction() && key in txInbox.value
      modifies this
      ensures var before := old(Snap()); var row := QuarantinedRow(out, old(txInbox).value[key], now, code, detail);
        if old(failNextQuarantine) then
          r.Err? && r.error.RetryableError?
          && Snap() == before.(st := before.st.(hooks := before.st.hooks.(failQuarantine := false)))
        else
          r == Ok(row) && Snap() == before.(txInbox := Some(old(txInbox).value[key := row]))
    {
      if failNextQuarantine {
        failNextQuarantine := false;
        return Err(RetryableError("DB_DEADLOCK", "injected quarantine persistence failure"));
      }
      var row := txInbox.value[key];
      row := row.(status := Quarantined);
      row := row.(quarantinedAt := Some(now));
      row := row.(lastErrorCode := Some(code));
      row := row.(lastErrorMessage := Some(out.sanitizeError(detail)));
      row := row.(processingOwner := None);
      row := row.(leaseUntil := None);
      txInbox := Some(txInbox.value[key := row]);
      r := Ok(row);
    }

    /** The projection hooks fire first, the retryable one before the poison one. */
    method InsertIfAbsent(o: Observation) returns (r: Result<bool, HandlerError>)
      requires InTransaction()
      modifies this
      ensures var before := old(Snap()); var working := old(txObservations).value;
        if old(failNextProjection) then
          r.Err? && r.error.RetryableError?
          && Snap() == before.(st := before.st.(hooks := before.st.hooks.(failProjection := false)))
        else if old(poisonNextProjection).Some? then
          r == Err(PoisonError(old(poisonNextProjection).value.code, old(poisonNextProjection).value.detail))
          && Snap() == before.(st := before.st.(hooks := before.st.hooks.(poisonProjection := None)))
        else
          r == Ok(o.eventId !in working)
          && Snap() == before.(txObservations :=
                Some(if o.eventId in working then working else working[o.eventId := o]))
    {
      if failNextProjection {
        failNextProjection := false;
        return Err(RetryableError("DB_DEADLOCK", "injected projection failure"));
      }
      if poisonNextProjection.Some? {
        var f := poisonNextProjection.value;
        poisonNextProjection := None;
        return Err(PoisonError(f.code, f.detail));
      }
      if o.eventId in txObservations.value {
        return Ok(false);
      }
      txObservations := Some(txObservations.value[o.eventId := o]);
      r := Ok(true);
    }

    /** Scan the committed observations, in whatever order, for an audit entry. */
    method GetByAuditEntryId(entry: Uuid) returns (r: Option<Observation>)
      ensures r.Some? ==> r.value in observations.Values && r.value.auditEntryId == entry
      ensures r.None? ==> forall e :: e in observations ==> observations[e].auditEntryId != entry
    {
      var left := observations.Keys;
      while left != {}
        invariant left <= observations.Keys
        invariant forall e :: e in observations && e !in left ==> observations[e].auditEntryId != entry
        decreases left
      {
        var e :| e in left;
        if observations[e].auditEntryId == entry {
          return Some(observations[e]);
        }
        left := left - {e};
      }
      r := None;
    }
  }

  class RecordingTransport {
    const store: MemoryAuditStore

    constructor (store: MemoryAuditStore)
      ensures this.store == store
    {
      this.store := store;
    }

    /** True when the crash hook fired and nothing reached the broker. */
    method Ack(d: Delivery) returns (crashed: bool)
      modifies store
      ensures var before := old(store.Snap());
        && crashed == before.st.hooks.crashBeforeAck
        && store.Snap() == if crashed then before.(st := before.st.(hooks := before.st.hooks.(crashBeforeAck := false)))
                           else Recorded(before, Messaging.Ack, d)
    {
      if store.crashBeforeAck {
        store.crashBeforeAck := false;
        return true;
      }
      store.actions := store.actions + [Sent(Messaging.Ack)];
      store.transportActions := store.transportActions + [Messaging.Ack];
      store.lastDelivery := Some(d);
      crashed := false;
    }

    method Nak(d: Delivery)
      modifies store
      ensures store.Snap() == Recorded(old(store.Snap()), Messaging.Nak, d)
    {
      store.actions := store.actions + [Sent(Messaging.Nak)];
      store.transportActions := store.transportActions + [Messaging.Nak];
      store.lastDelivery := Some(d);
    }

    method Defer(d: Delivery)
      modifies store
      ensures store.Snap() == Recorded(old(store.Snap()), Messaging.Defer, d)
    {
      store.actions := store.actions + [Sent(Messaging.Defer)];
      store.transportActions := store.transportActions + [Messaging.Defer];
      store.lastDelivery := Some(d);
    }
  }

  /** The store after a broker action was recorded. */
  function Recorded(before: Snapshot, action: BrokerAction, d: Delivery): Snapshot {
    before.(actions := before.actions + [Sent(action)], transportActions := before.transportActions + [action],
            lastDelivery := Some(d))
  }
}
