# HUDHUD platform: a verified model

Models of the parts of the HUDHUD platform that carry its promises, and proofs of those promises.

- **Audit inbox consumer** (`AuditTypes`, `Validation`, `InboxSpec`, `AuditStore`, `Coordinator`, `InboxRuns`,
  `InboxProgress`, `InboxOrder`, `InboxFacts`, `Messaging`). An at-least-once broker is turned into an exactly-once
  projection. `AuditStore` is the transactional store with its fault hooks as a class, `Coordinator` the handler as
  methods that begin, insert, mark, commit, roll back and answer the broker step by step; each is proved equal to a
  specification function. The results are about whole runs with duplicates, rejections, undecodable bodies, retryable
  and poison failures, lost ACKs, any clock and both quarantine policies. Most hold whatever reading a delivery comes
  to (`read`); the code's own reading is `WorkOf` (`CodedReads`). `InboxFacts` tells every stored row and observation
  from the bodies and the clock of the run that made it.
- **Event envelope** (`Timestamps`, `Trace`, `Envelope`, `EnvelopeFacts`). Timestamps as RFC 3339 section 5.6 has
  them, trace context, the wire dictionary with its unknown-field policy; which wires are read as which envelope, name
  by name.
- **Finance ledger** (`Ledger`, `Journal`). The append-only triggers and the deferred balance trigger as steps of
  transactions; local checks at COMMIT against the global trial balance; which ledgers can come about at all; the
  application's own journal rules beside the trigger's, and its accounting equation.
- **OpenAPI merge** (`ApiDocs`). A family of documents rewritten into one without changing what a reference means.
- **Port registry verifier** (`Ports`, `PortCollisions`, `PortFacts`, `PortReports`). A verdict that is sound and
  complete, reports that are exactly what is wrong with the file, and a port budget.
- **Claims and incidents** (`Claims`, `ClaimsService`, `ClaimRuns`, `ClaimFacts`, `OperationsView`). Every run of the
  services keeps the row constraints the migration states; outcomes are final; no decision without a review; every row
  tells who did what to it and when; amounts do not leak.
- **CI path impact** (`Impact`, `ImpactLaws`, `ImpactText`): the scope as a function of the paths' text. **Generated
  regions** (`Regions`).

`Wrappers`, `Json` and `Strings` hold what these share.

Where code and documentation disagree, the code is modelled and the difference is a theorem:

- The finance migration says every entry balances. The trigger hangs on postings, so an entry that never receives one
  commits (`EntryWithoutPostingsCommits`); and one whose check SET CONSTRAINTS has made early can lose its postings to
  TRUNCATE (`FiredThenTruncated`). A new entry balances exactly if a posting of it was inserted after the last
  truncation (`NewEntriesBalanceExactly`).
- It also says there is no way but posting a reverse, even at a psql prompt. TRUNCATE fires no row trigger: a history
  is append-only exactly if no committed transaction erases rows by truncating (`HistoryOnlyGrows`, `TruncateErases`).
- Redelivery does not always end in an acknowledgement. Two things stop it (`HandlingRaisesExactly`,
  `RedeliveryConverges`):
  - Reading raises past the handler. With str() taken to be total, it does exactly for a body nested too deep for the
    decoder (RecursionError), a JSON body that is no object (AttributeError), an infinite `envelope_version`
    (OverflowError from int()), and metadata whose lists nest deeper than the secret scan can recurse
    (RecursionError): `UnhandledExactly`, `UnhandledNeverConverges`.
  - The transaction cannot begin. `begin` copies every stored observation with deepcopy, which follows objects and
    lists alike, two calls a level; metadata the scan lets through can be deeper than that (`DeepMetadataIsAccepted`).
    One such message is processed and acknowledged like any other, and after it nothing is answered or stored any
    more, for any event (`DeepMessageStopsEverything`, `StuckForever`).

  From a store without armed failures every redelivery of a message converges if and only if it can be read, its
  transaction can begin, and it would not itself store such metadata (`ConvergesExactly`).
- The outcome can depend on the order of deliveries. For two events exactly when one stores metadata that keeps the
  other's transaction from beginning (`StrangersCommuteExactly`). For two deliveries of one event unless they ask the
  same or a rerun may still replace a rejection (`PairsCommuteExactly`); a message and the same message on another
  subject are such a pair (`ConflictingWorkIsOrdered`).
- Metadata is scanned for secrets through lists but not into objects: accepted metadata holds one exactly when a
  nested object does (`AcceptedLeaksExactly`), and any secret one object deep is accepted (`NestedSecretIsAccepted`).
- Two sources can share an event identity name exactly when "system:table:" of the one starts that of the other
  (`NamesMeetExactly`); without colons in system and table that takes the same source (`NameIsInjective`).
- An envelope comes back from its wire form exactly when no preserved name is a known one (`RoundTrip`).
- A withdrawn claim's status is final but its row is not: it changes exactly when someone allowed records a custody
  review of it (`WithdrawnRowsStillChange`, `WithdrawnRowsChangeOnlyByReview`); and a custody review recorded before
  the review starts is wiped by starting it (`EarlyCustodyReviewIsForgotten`).
- Replacing a generated region twice is the same as once exactly when the body does not hold the closing fence
  (`ReplacingTwice`); normalizing a path twice is the same as once exactly when no space comes to its front by
  dropping leading "./" (`NormalizingTwice`, `DottedSpaceIsNotNormal`).
- A binding with an empty host mapping passes the registry's schema check; only when it is active does the collector
  refuse it (`AllocationPasses` keeps the two conditions apart).
- Schemas of two services can get one merged name exactly when one service's name with a dot starts the other's with a
  dot (`NamesCollideExactly`); the merge theorems ask only that no two services are such a pair.

What the code takes from outside is a parameter: JSON text and UUID text, `uuid5`, the SHA fingerprint, pydantic's lax
conversions, secret patterns, the tracking-code pattern, `str()`, `sorted` as an enumeration, fresh uuid4 values, the
clock. The laws asked of them are predicates (`Lawful`, `IterationIsFair`, `Enumerates`, `Possible`) in the theorems
that need them; `LawsAreConsistent` shows a codec that meets the laws asked of one.

## Model

| member | source | states |
|---|---|---|
| Coordinator.ObservationConsumerCoordinator.constructor | services/audit/src/audit/application/coordinator.py:45-70 | the coordinator is wired to the store and transport it is given |
| Coordinator.ObservationConsumerCoordinator.Handle | services/audit/src/audit/application/coordinator.py:72-112 | one handling, step by step on store and transport, ends in the store, the action log and the outcome or uncaught error that InboxSpec.Perform gives for the old store and what reading the delivery comes to |
| Coordinator.ObservationConsumerCoordinator.HandleParsed | services/audit/src/audit/application/coordinator.py:95-112 | what deserialization raised is quarantined, except the OverflowError, which nothing catches and which changes nothing; where no transaction can begin that is a RecursionError |
| Coordinator.ObservationConsumerCoordinator.HandleEnvelope | services/audit/src/audit/application/coordinator.py:79-93 | a read envelope is validated, and then processed or quarantined with its own header, or raises where no transaction can begin |
| Coordinator.ObservationConsumerCoordinator.HandleValidated | services/audit/src/audit/application/coordinator.py:79-93 | a ContractRejection is quarantined; a RecursionError in validation is not caught and changes nothing, nor is one of begin |
| Coordinator.ObservationConsumerCoordinator.CommitAndAnswer | services/audit/src/audit/application/coordinator.py:192-200 | the working tables are committed before the broker hears of it, whether or not the ACK then gets out |
| Coordinator.ObservationConsumerCoordinator.QuarantineDeserializePoison | services/audit/src/audit/application/coordinator.py:114-125 | an undecodable delivery is quarantined under its derived event id, in a transaction begun one call deeper than the others, whose RecursionError nothing catches |
| Coordinator.ObservationConsumerCoordinator.ProcessValidated | services/audit/src/audit/application/coordinator.py:127-177 | a valid message is inserted and projected, or goes the duplicate way; a retryable failure rolls back and NAKs, a poison failure rolls back and quarantines; a begin that cannot copy the store raises before the guarded block and stores nothing |
| Coordinator.ObservationConsumerCoordinator.Process | services/audit/src/audit/application/coordinator.py:134-177 | the guarded block and its two handlers, in a transaction that has begun; after a poisoned projection the quarantine's own begin may still raise |
| Coordinator.ObservationConsumerCoordinator.TryProcess | services/audit/src/audit/application/coordinator.py:134-151 | the guarded block: what it stores, and which failure it raises |
| Coordinator.ObservationConsumerCoordinator.RollbackAndNak | services/audit/src/audit/application/coordinator.py:152-165 | a retryable failure leaves the committed store as it was and answers NAK |
| Coordinator.ObservationConsumerCoordinator.RollbackAndQuarantine | services/audit/src/audit/application/coordinator.py:166-177 | a poison failure undoes its transaction before it is recorded as permanent |
| Coordinator.ObservationConsumerCoordinator.Complete | services/audit/src/audit/application/coordinator.py:179-230 | projecting and marking PROCESSED are one commit, and the ACK comes after it |
| Coordinator.ObservationConsumerCoordinator.HandleDuplicate | services/audit/src/audit/application/coordinator.py:202-276 | a known event is answered by its row: final rows at once, leased ones deferred, expired ones run again |
| Coordinator.ObservationConsumerCoordinator.AnswerKnown | services/audit/src/audit/application/coordinator.py:217-230 | a final or leased row is answered without storing anything |
| Coordinator.ObservationConsumerCoordinator.Exhaust | services/audit/src/audit/application/coordinator.py:232-253 | an event out of attempts is quarantined in one commit |
| Coordinator.ObservationConsumerCoordinator.QuarantinePermanent | services/audit/src/audit/application/coordinator.py:278-355 | a permanent failure is recorded once, never over a PROCESSED row; a failing record is a NAK; a begin that cannot copy the store raises and records nothing |
| Coordinator.ObservationConsumerCoordinator.RecordQuarantine | services/audit/src/audit/application/coordinator.py:293-355 | the recording itself, in a transaction that has begun: insert or find the row, leave a PROCESSED one alone, mark it, commit, answer |
| Coordinator.ObservationConsumerCoordinator.ApplyTransport | services/audit/src/audit/application/coordinator.py:361-367 | the broker hears the decided action, unless the crash hook swallows the ACK |
| AuditStore.MemoryAuditStore.constructor | services/audit/src/audit/infrastructure/memory.py:47-57 | a new store is empty, idle and without armed faults |
| AuditStore.MemoryAuditStore.Begin | services/audit/src/audit/infrastructure/memory.py:59-61 | a transaction starts from copies of the committed tables; it raises, with only the inbox copied, exactly when some observation's metadata nests deeper than the copy can follow from here |
| AuditStore.MemoryAuditStore.Commit | services/audit/src/audit/infrastructure/memory.py:63-71 | the working tables become the committed ones, and the commit is logged |
| AuditStore.MemoryAuditStore.Rollback | services/audit/src/audit/infrastructure/memory.py:73-76 | the working tables are dropped, the committed ones untouched |
| AuditStore.MemoryAuditStore.TryInsertReceived | services/audit/src/audit/infrastructure/memory.py:84-128 | a row is inserted only when its key is free |
| AuditStore.MemoryAuditStore.LoadExisting | services/audit/src/audit/infrastructure/memory.py:130-133 | the row of a key, in the working tables |
| AuditStore.MemoryAuditStore.ReclaimProcessing | services/audit/src/audit/infrastructure/memory.py:135-152 | a reclaimed row gets a new owner and lease and one more attempt |
| AuditStore.MemoryAuditStore.MarkProcessed | services/audit/src/audit/infrastructure/memory.py:154-165 | a processed row has no owner and no lease |
| AuditStore.MemoryAuditStore.MarkQuarantined | services/audit/src/audit/infrastructure/memory.py:167-188 | a quarantined row carries its error and no lease; an injected failure is raised instead, once |
| AuditStore.MemoryAuditStore.InsertIfAbsent | services/audit/src/audit/infrastructure/memory.py:190-198 | an observation is never overwritten; injected failures are raised instead, once |
| AuditStore.MemoryAuditStore.GetByAuditEntryId | services/audit/src/audit/infrastructure/memory.py:203-207 | an observation with that audit entry id is found if and only if there is one |
| AuditStore.RecordingTransport.constructor | services/audit/src/audit/infrastructure/memory.py:18-19 | the transport records on the store it is given |
| AuditStore.RecordingTransport.Ack | services/audit/src/audit/infrastructure/memory.py:21-27 | an ACK is recorded, or the armed crash fires once instead and nothing is |
| AuditStore.RecordingTransport.Nak | services/audit/src/audit/infrastructure/memory.py:29-32 | a NAK is recorded |
| AuditStore.RecordingTransport.Defer | services/audit/src/audit/infrastructure/memory.py:34-37 | a deferral is recorded |
| InboxSpec.HandleRespects | services/audit/src/audit/application/coordinator.py:72-367 | one handling, whatever reading came to, touches only its own event, never a PROCESSED row nor an existing observation, ACKs only a final row, and on NAK, DEFER or an unhandled error changes no table |
| InboxSpec.AtMostOneCommitAndAction | services/audit/src/audit/infrastructure/memory.py:21-76 | one handling commits at most once and speaks to the broker at most once, after everything else |
| InboxSpec.UnhandledExactly | services/audit/src/audit/application/coordinator.py:95-112 | reading a delivery escapes every handler if and only if its body nests too deep to decode, is JSON but no object, gives an infinite version, or holds a valid envelope whose metadata the secret scan cannot follow |
| InboxSpec.HandlingRaisesExactly | services/audit/src/audit/application/coordinator.py:127-177 | a handling raises past the handlers if and only if reading does, or its transaction cannot copy the store, or a poisoned projection's quarantine, one call deeper, cannot |
| InboxSpec.CodedReads | services/audit/src/audit/application/coordinator.py:72-112 | results about any reading of deliveries hold of the code's own |
| InboxFacts.ReadingExactly | services/audit/src/audit/application/coordinator.py:72-125 | a body is a message exactly if it reads as an acceptable envelope, then with every field as stated; otherwise a rejection under its own header or, undecodable, under its message id or fingerprint |
| InboxFacts.EscapesAs | services/audit/src/audit/application/coordinator.py:95-112 | which error is raised past the handlers, and for what |
| InboxFacts.StepWritesRow | services/audit/src/audit/infrastructure/memory.py:84-188 | a handling that changes a row writes it as the delivery and the clock have it: where it came from, its times, its attempts, and what it is quarantined for |
| InboxFacts.WorkIsLeased | services/audit/src/audit/infrastructure/memory.py:84-152 | a row that is worked on belongs to this consumer's owner until its lease runs out |
| InboxFacts.EveryAnswerIsTrue | services/audit/src/audit/application/coordinator.py:152-355 | the answer's status is the row's, something was written exactly if the observation is new, DEFER exactly under a running lease, NAK exactly for a failure that fires, and the reason fits |
| InboxFacts.CrashTakesAnAck | services/audit/src/audit/infrastructure/memory.py:21-37 | an armed crash takes the place of the ACK of a final row, once, and of no other answer |
| InboxRuns.TerminalForever | packages/messaging_conformance/src/messaging_conformance/inbox_decisions.py:34-97 | over every later run PROCESSED rows and observations never change, no row or observation disappears, and under ACK_TERMINAL a QUARANTINED status stays |
| InboxRuns.EveryAckIsDurable | services/audit/src/audit/application/coordinator.py:179-230 | each ACK of every run is sent when the event's committed row is final, and what it promised stays |
| InboxRuns.EveryNakLeavesStore | services/audit/src/audit/application/coordinator.py:152-165 | each NAK or DEFER of every run leaves inbox and observations exactly as they were |
| InboxRuns.RunIsProjected | services/audit/src/audit/application/coordinator.py:127-276 | after every run from the empty store every row is final without owner or lease, and the observed events are exactly the PROCESSED ones |
| InboxRuns.EveryObservationHasAWriter | services/audit/src/audit/infrastructure/memory.py:190-198 | every observation was written by one step of the run, as the projection of that step's valid delivery |
| InboxRuns.NoSecondWriter | services/audit/src/audit/infrastructure/memory.py:190-198 | no later step writes that observation again |
| InboxRuns.ExactlyOnce | services/audit/src/audit/application/coordinator.py:127-276 | exactly-once projection: observed iff PROCESSED; each observation has exactly one writing step, is the projection of its delivery, and ends as it was written |
| InboxFacts.ObservationsStateTheirBodies | services/audit/src/audit/application/validation.py:101-146 | after every run each observation says, field by field, what the body of one delivery says, the only one after which it appeared |
| InboxFacts.EveryRowTells | services/audit/src/audit/application/coordinator.py:127-355 | after every run each row tells the delivery that opened it and the one that settled it: projected at the first attempt or at the second after a quarantine, or quarantined, when and for what |
| InboxRuns.AttemptsAreBounded | packages/messaging_conformance/src/messaging_conformance/retry.py:50-61 | from any store, with a positive limit no attempt count ever exceeds max(seed, limit - 1, 1) |
| InboxProgress.StepProgresses | services/audit/src/audit/application/coordinator.py:152-177 | a handling past the lease of a message that can be read, on a store its transaction can copy, ends in an ACK or uses up an injected failure |
| InboxProgress.RedeliveryConverges | services/audit/src/audit/application/coordinator.py:72-276 | redelivered past any lease more often than failures are injected, a message is ACKed if and only if it can be read, its transaction can copy the store, and no crash between commit and ACK leaves a store that cannot be copied; under either policy and from any store |
| InboxProgress.ConvergesExactly | services/audit/src/audit/application/coordinator.py:72-276 | from any store without armed failures, all redeliveries of a message converge if and only if it can be read, its transaction can begin, and it would not store new metadata too deep to copy |
| InboxProgress.StuckForever | services/audit/src/audit/infrastructure/memory.py:59-61 | from a store that cannot be copied on, over every run no delivery of any event is answered and no table changes; each raises |
| InboxProgress.DeepMessageStopsEverything | services/audit/src/audit/infrastructure/memory.py:59-61 | a valid message with metadata too deep to copy is ACKed, and no later delivery ever is |
| InboxProgress.UnhandledNeverConverges | services/audit/src/audit/application/coordinator.py:95-112 | over every run of redeliveries such a delivery is answered nothing, changes no table, and raises its error each time |
| InboxProgress.LeasedIsDeferred | services/audit/src/audit/application/coordinator.py:217-230 | while another lease runs a valid message is deferred, if its transaction can begin, and nothing is stored either way |
| InboxOrder.RunSettles | services/audit/src/audit/application/coordinator.py:179-230 | after a failure-free run whose transactions can all begin, and leave the next ones able to, every event stands as if what was asked of it had been done once |
| InboxOrder.OrderDoesNotMatter | services/audit/src/audit/application/coordinator.py:179-230 | confluence: failure-free runs of deliveries that ask the same, and of each event always the same, in any order and number, end with the same statuses and, but for the time of receipt, the same observations, as long as all that is stored can be copied |
| InboxOrder.PairsCommuteExactly | services/audit/src/audit/application/coordinator.py:202-308 | two failure-free deliveries of one event leave the same store in either order if and only if they ask the same, or one is a rejection that a rerun of the other may still replace |
| InboxOrder.ConflictingWorkIsOrdered | services/audit/src/audit/application/validation.py:41-42 | conflicting deliveries exist: a valid message on another subject is rejected under its own event id, and the order of the two matters unless the rejection may be replaced |
| InboxOrder.StrangersCommuteExactly | services/audit/src/audit/infrastructure/memory.py:59-61 | two failure-free deliveries of different events commute if and only if neither stores metadata that keeps the other's transaction from beginning |
| InboxOrder.OneObservationPerSourceRow | services/audit/src/audit/application/validation.py:76-95 | after every run of deliveries read as the code reads them there is at most one observation per source row |
| InboxOrder.LookupIsDeterminate | services/audit/src/audit/infrastructure/memory.py:200-207 | looking up by audit entry id does not depend on scan order |
| Messaging.LeaseDichotomy | packages/messaging_conformance/src/messaging_conformance/lease.py:8-17 | a lease is active or expired, never both, and expired for good |
| Messaging.DecideDuplicate | packages/messaging_conformance/src/messaging_conformance/inbox_decisions.py:34-97 | an ACK exactly for a PROCESSED or terminally QUARANTINED row, a deferral exactly under a running lease, and the work runs again in every other case |
| Messaging.PostCommitAgreesWithDuplicate | packages/messaging_conformance/src/messaging_conformance/inbox_decisions.py:100-121 | what is ACKed after a commit is what a redelivery would be ACKed for |
| Messaging.NameIsInjective | packages/messaging_conformance/src/messaging_conformance/observation.py:29-59 | identity names determine system, table and key when system and table hold no colon |
| Messaging.NamesMeetExactly | packages/messaging_conformance/src/messaging_conformance/observation.py:29-39 | two sources can share an identity name if and only if the part before the key of the one starts that of the other |
| Messaging.ColonFreeSourcesKeepApart | packages/messaging_conformance/src/messaging_conformance/observation.py:29-39 | for colon-free sources that happens only with the same source |
| Validation.SanitizeMetadata | services/audit/src/audit/application/validation.py:149-164 | the loop over the metadata ends with the dictionary or the first problem the specification names |
| Validation.SanitizedMeansClean | services/audit/src/audit/application/validation.py:149-186 | metadata passes unchanged if and only if it has at most 32 keys, none forbidden, and each value is shallow enough to scan and not secret-like |
| Validation.FindMissing | services/audit/src/audit/application/validation.py:67-74 | the loop finds the first required field that is missing, if there is one |
| Validation.ValidateA2Delivery | services/audit/src/audit/application/validation.py:39-121 | the checks in order: the message, or the first rejection |
| Validation.AcceptedIsComplete | services/audit/src/audit/application/validation.py:39-74 | accepted means the contract's subject, stream, consumer, producer and type, and no field missing |
| Validation.AcceptedExactly | services/audit/src/audit/application/validation.py:39-121 | a delivery is accepted if and only if transport and envelope are the contract's, the payload is complete and without raw change data, one UUID names its row and derives the event id, the metadata is clean, and actor, entity and time can be read |
| Validation.AcceptedStatesPayload | services/audit/src/audit/application/validation.py:101-121 | an accepted message says of every field what the envelope or the payload says under that field's own name |
| Validation.RejectionCodes | services/audit/src/audit/application/validation.py:41-50 | SUBJECT_FORBIDDEN for another subject, stream or consumer, SCHEMA_MISMATCH for everything else |
| Validation.RejectionsAreTrue | services/audit/src/audit/application/validation.py:39-186 | whatever a rejection gives as its detail is true of the delivery |
| Validation.AcceptedHasRowIdentity | services/audit/src/audit/application/validation.py:76-95 | accepted means the event id derived from the source row |
| Validation.AcceptedMetadataIsClean | services/audit/src/audit/application/validation.py:97-121 | accepted metadata is what came in; no key of it is forbidden, no text in it or its lists is secret-like, and it leaks exactly if a nested object does |
| Validation.ScanPasses | services/audit/src/audit/application/validation.py:173-185 | the recursive scan passes exactly the values whose lists nest no deeper than it can recurse and whose text, lists included, is not secret-like |
| Validation.ValidationEscapesExactly | services/audit/src/audit/application/validation.py:39-121 | validation raises past the handler if and only if everything before the metadata is in order and a value there is nested too deep, with all before it fine |
| Validation.AcceptedLeaksExactly | services/audit/src/audit/application/validation.py:149-185 | accepted metadata holds secret text or a forbidden name, at any depth, if and only if an object nested in one of its values does |
| Validation.NestedSecretIsAccepted | services/audit/src/audit/application/validation.py:173-185 | any secret under any name is accepted one object deep |
| Validation.DeepMetadataIsAccepted | services/audit/src/audit/application/validation.py:173-185 | how deep nested objects and lists may be to pass the scan, and to be copied: objects of any depth pass |
| Timestamps.ParseOfFormat | packages/event_envelope/src/event_envelope/primitives.py:14-34 | from year 1000, parsing a printed time gives it cut to the millisecond, and that prints the same |
| Timestamps.FormatOfParse | packages/event_envelope/src/event_envelope/primitives.py:14-34 | printing a parsed canonical time gives the text back |
| Timestamps.CanonicalFromYear1000 | packages/event_envelope/src/event_envelope/primitives.py:14-21 | the printed form is canonical exactly from year 1000 on |
| Timestamps.FormatIsMonotone | packages/event_envelope/src/event_envelope/primitives.py:14-21 | printed times sort as text exactly as the times cut to the millisecond do |
| Trace.CanonicalIsFixed | packages/event_envelope/src/event_envelope/trace.py:39-51 | the fixed points of the normalizer are exactly the canonical values |
| Trace.NormalizedIsCanonical | packages/event_envelope/src/event_envelope/trace.py:39-51 | whatever is let through is canonical, so normalizing twice is normalizing once |
| Trace.CaseAndPaddingDoNotMatter | packages/event_envelope/src/event_envelope/trace.py:39-51 | headers equal up to case and outer spaces have one result |
| Trace.PolicyKeepsCanonical | packages/event_envelope/src/event_envelope/trace.py:54-73 | no policy that keeps context changes a canonical value |
| Trace.PolicyOutcome | packages/event_envelope/src/event_envelope/trace.py:54-73 | an error exactly for an invalid value under REJECT; what is kept is canonical |
| Envelope.DumpRefs | packages/event_envelope/src/event_envelope/envelope.py:191-194 | the media references, one by one and in order |
| Envelope.ModelDumpJsonReady | packages/event_envelope/src/event_envelope/envelope.py:169-197 | the dictionary completed name by name is the wire form: every known field once, preserved names over them |
| EnvelopeFacts.WrittenExactly | packages/event_envelope/src/event_envelope/envelope.py:169-197 | every field is written under its own name, absent ones are left out, and preserved names stay as they were |
| EnvelopeFacts.SerializedExactly | packages/event_envelope/src/event_envelope/serde.py:42-56 | a writer refuses exactly preserved names, if it is strict, and what is too large |
| Envelope.ParseOfWire | packages/event_envelope/src/event_envelope/serde.py:42-70 | a consumer reads a valid envelope back, timestamps cut to milliseconds |
| Envelope.ParsedIsValid | packages/event_envelope/src/event_envelope/serde.py:95-126 | whatever is accepted meets every constraint of the model at the supported version |
| EnvelopeFacts.ParsedExactly | packages/event_envelope/src/event_envelope/serde.py:95-126 | a wire is read as an envelope if and only if its version is one, its unknown names are allowed, every field is what the wire says under its own name, and the envelope keeps its limits |
| EnvelopeFacts.RefusedExactly | packages/event_envelope/src/event_envelope/serde.py:95-126 | which error a refused wire raises, and that it is the first that applies |
| Envelope.OverflowsExactly | packages/event_envelope/src/event_envelope/serde.py:102 | int()'s OverflowError escapes the parser exactly on an infinite version |
| Envelope.ParsedUnknowns | packages/event_envelope/src/event_envelope/serde.py:95-126 | which names an accepted envelope preserves |
| Envelope.OverlapIsLost | packages/event_envelope/src/event_envelope/envelope.py:169-197 | an envelope that comes back from its wire form preserves no known name |
| Envelope.RoundTrip | packages/event_envelope/src/event_envelope/serde.py:42-70 | the round trip holds if and only if no preserved name is a known one, and always for a rejecting writer |
| Envelope.FloorIsInvisible | packages/event_envelope/src/event_envelope/envelope.py:169-197 | the cut below a millisecond never shows on the wire |
| Envelope.RewriteIsIdempotent | packages/event_envelope/src/event_envelope/serde.py:42-126 | reading and writing a wire once settles it, unless an `unknown_fields` key is all it has beyond the known names |
| Ledger.LedgerDatabase.constructor | services/finance/alembic/versions/w27_finance_core_001.py:113-197 | the tables start empty |
| Ledger.LedgerDatabase.Begin | services/finance/alembic/versions/w27_finance_core_001.py:222-228 | a transaction starts with an empty trigger queue and deferred checks |
| Ledger.LedgerDatabase.Run | services/finance/alembic/versions/w27_finance_core_001.py:115-217 | a statement is applied or refused by a CHECK, a key, the append-only triggers when an UPDATE or DELETE hits a row, the pending ones, or a balance check made at once |
| Ledger.LedgerDatabase.Insert | services/finance/alembic/versions/w27_finance_core_001.py:222-228 | inserted postings queue their entries' checks, or have them made at the end of the statement when constraints are immediate |
| Ledger.LedgerDatabase.Constrain | services/finance/alembic/versions/w27_finance_core_001.py:222-228 | SET CONSTRAINTS makes the queued checks now and later ones at once, or defers the later ones |
| Ledger.LedgerDatabase.Fire | services/finance/alembic/versions/w27_finance_core_001.py:222-228 | the trigger procedure runs for each queued posting and raises if any of its entries is not in order |
| Ledger.LedgerDatabase.CountEntry | services/finance/alembic/versions/w27_finance_core_001.py:69-76 | one scan fills the procedure's four variables |
| Ledger.LedgerDatabase.AssertEntryBalances | services/finance/alembic/versions/w27_finance_core_001.py:57-110 | the trigger procedure: its counts and its tests in order |
| Ledger.LedgerDatabase.Commit | services/finance/alembic/versions/w27_finance_core_001.py:222-228 | COMMIT keeps the work if and only if every queued check passes |
| Ledger.LedgerDatabase.TransactAll | services/finance/alembic/versions/w27_finance_core_001.py:199-228 | a whole transaction is all or nothing |
| Ledger.VerdictMeansSound | services/finance/alembic/versions/w27_finance_core_001.py:57-110 | the procedure passes exactly an entry without postings, or with at least two in one currency and equal positive sides, that fits its counters |
| Ledger.VerdictSays | services/finance/alembic/versions/w27_finance_core_001.py:57-110 | which error the procedure raises, and that it is the first that applies |
| Ledger.LocalChecksAreGlobal | services/finance/alembic/versions/w27_finance_core_001.py:222-228 | on sound books, the checks still queued at COMMIT all pass if and only if the whole books stay sound, whatever was checked early |
| Ledger.EntryWithoutPostingsCommits | services/finance/alembic/versions/w27_finance_core_001.py:222-228 | on any ledger an entry that never gets a posting commits unchecked |
| Ledger.NewEntriesBalanceExactly | services/finance/alembic/versions/w27_finance_core_001.py:222-228 | after a committed transaction on sound books a new entry has at least two postings, one currency and equal positive sides if and only if a posting of it was inserted after the last truncation |
| Ledger.FiredThenTruncated | services/finance/alembic/versions/w27_finance_core_001.py:222-228 | an entry that received balanced postings is committed without any when SET CONSTRAINTS fires its check before a TRUNCATE |
| Ledger.TrialBalance | services/finance/alembic/versions/w27_finance_core_001.py:57-110 | in sound books debits equal credits in every currency |
| Ledger.BooksAlwaysBalance | services/finance/alembic/versions/w27_finance_core_001.py:199-228 | after every serial history the books are sound and every currency nets to zero |
| Ledger.ReachableExactly | services/finance/alembic/versions/w27_finance_core_001.py:113-228 | the ledgers that some history of transactions leads to are exactly those with every row checked, every key unique, every posting's entry there and every entry balanced |
| Ledger.CommittedTouchesNothing | services/finance/alembic/versions/w27_finance_core_001.py:43-54 | a committed transaction contains no UPDATE or DELETE that hit a row of its table, old or its own |
| Ledger.MutationsPassExactly | services/finance/alembic/versions/w27_finance_core_001.py:199-220 | an UPDATE or DELETE aborts its transaction exactly if it hits a row, and otherwise changes nothing |
| Ledger.HistoryOnlyGrows | services/finance/alembic/versions/w27_finance_core_001.py:199-220 | whatever UPDATEs and DELETEs would make of the rows, each ledger of a history extends every earlier one if and only if no committed transaction erases rows by TRUNCATE |
| Ledger.TruncateErases | services/finance/alembic/versions/w27_finance_core_001.py:199-220 | one TRUNCATE of a ledger with postings does |
| Journal.BuildableMeans | services/finance/src/finance/domain/ledger.py:70-126 | an entry can be built exactly if its amounts are positive and of one currency, there are lines on both sides, and the sides are equal |
| Journal.RefusalsInOrder | services/finance/src/finance/domain/ledger.py:70-126 | why an entry cannot be built: the first fault that applies |
| Journal.BuildAgreesWithTrigger | services/finance/src/finance/domain/ledger.py:108-126 | the trigger passes the postings of an entry if and only if there are none, or the application could build the entry and its sums fit the trigger's counters |
| Journal.ReverseIsBuildable | services/finance/src/finance/domain/ledger.py:235-261 | every entry can be reversed, and twice gives it back |
| Journal.BalanceOf | services/finance/src/finance/domain/ledger.py:158-190 | the nested loops derive the signed balance and count its postings, or refuse a negative one |
| Journal.BalanceIsNet | services/finance/src/finance/domain/ledger.py:74-90 | cash, transit and bank accounts hold what was debited less what was credited, payables and revenue the other way round |
| Journal.HoldingsMatchClaims | services/finance/src/finance/domain/ledger.py:74-90 | the accounting equation: over any journal of buildable entries all money held equals all owed and earned |
| Journal.ReverseUndoes | services/finance/src/finance/domain/ledger.py:235-261 | an entry and its reverse, anywhere in the journal, move no balance |
| ApiDocs.Merge | scripts/dev/api_docs.py:106-159 | the loop over the services builds tags, schemas and paths as specified |
| ApiDocs.MergeSchemas | scripts/dev/api_docs.py:134-137 | each schema is added under its prefixed name |
| ApiDocs.MergePaths | scripts/dev/api_docs.py:139-157 | each path but the plumbing is added as its edited entry, over an earlier one |
| ApiDocs.EditPath | scripts/dev/api_docs.py:142-153 | a path item gets its server and its operations are edited |
| ApiDocs.EditOperations | scripts/dev/api_docs.py:146-153 | exactly the operations are edited |
| ApiDocs.PrefixedDetermines | scripts/dev/api_docs.py:134-137 | with services apart a merged name says which schema of which service it is |
| ApiDocs.NamesCollideExactly | scripts/dev/api_docs.py:134-137 | schemas of two services can get one merged name if and only if one service's name with its dot starts the other's with its |
| ApiDocs.DotFreeNamesKeepApart | scripts/dev/api_docs.py:134-137 | different dot-free names never are such a pair |
| ApiDocs.MergedLookup | scripts/dev/api_docs.py:134-137 | the merged document holds each service's schemas under its names, and nothing else there |
| ApiDocs.MergedSchemaOrigin | scripts/dev/api_docs.py:134-137 | every merged schema is some service's own |
| ApiDocs.NamespacedRefs | scripts/dev/api_docs.py:81-103 | every reference moves to exactly its own schema's prefixed name |
| ApiDocs.UnfoldingIsKept | scripts/dev/api_docs.py:81-103 | unfolded to any depth, the namespaced document is the original but for the prefix |
| ApiDocs.MergePreservesMeaning | scripts/dev/api_docs.py:106-159 | the same in the merged document, for every service and every depth |
| ApiDocs.MergeResolves | scripts/dev/api_docs.py:106-159 | references resolve after the merge if and only if they did before |
| ApiDocs.EntryKeepsTheRest | scripts/dev/api_docs.py:142-153 | operations get their service as tag and id prefix; everything else of a path item stays |
| ApiDocs.MergedPath | scripts/dev/api_docs.py:139-157 | no path is lost: the last service serving it provides the entry |
| ApiDocs.MergedPathsExactly | scripts/dev/api_docs.py:139-157 | the merged paths are exactly those some service serves, without the plumbing |
| ApiDocs.MergedPathItem | scripts/dev/api_docs.py:139-157 | each path of the last service that serves it, part by part: its server, its service as every operation's tag and id prefix, references moved, all else as it was |
| ApiDocs.MergedTags | scripts/dev/api_docs.py:115-132 | one tag per service in order, with its name, address and port |
| ApiDocs.MergedDocumentIsClosed | scripts/dev/api_docs.py:106-159 | if every service's document is closed under its references, so is the merged one |
| Ports.ParsePort | scripts/quality/verify_port_allocations.py:109-116 | a port in 1 to 65535, or one fault |
| Ports.ParseRange | scripts/quality/verify_port_allocations.py:133-140 | an interval of two ports in order, or its faults |
| Ports.HostInterval | scripts/quality/verify_port_allocations.py:143-162 | the interval a host takes, by its type |
| Ports.ValidateHost | scripts/quality/verify_port_allocations.py:201-213 | the faults of a host mapping |
| Ports.ValidateContainer | scripts/quality/verify_port_allocations.py:215-225 | the faults of a container mapping |
| Ports.ValidateBinding | scripts/quality/verify_port_allocations.py:192-225 | the faults of a binding |
| Ports.ValidateAllocation | scripts/quality/verify_port_allocations.py:165-227 | the faults of an allocation |
| Ports.CollectBinding | scripts/quality/verify_port_allocations.py:256-272 | an active binding with an interval joins its environment and protocol's group |
| Ports.CollectOne | scripts/quality/verify_port_allocations.py:242-272 | one allocation: validated, its id noted, its bindings grouped |
| Ports.CollectActiveHostIntervals | scripts/quality/verify_port_allocations.py:230-274 | the groups are those of the flat list of active bindings, and every duplicate id is reported |
| Ports.GroupsAreOfActives | scripts/quality/verify_port_allocations.py:230-274 | grouping allocation by allocation is grouping the flat list of active bindings |
| Ports.CheckGroup | scripts/quality/verify_port_allocations.py:283-296 | the two nested loops report the overlapping pairs of a group |
| Ports.CheckHostCollisions | scripts/quality/verify_port_allocations.py:277-296 | all groups, after the collector's own reports |
| Ports.CheckInternal | scripts/quality/verify_port_allocations.py:307-331 | each active host binding of an internal container is reported |
| Ports.CheckInternalContainerReuse | scripts/quality/verify_port_allocations.py:299-331 | the same for every allocation |
| Ports.VerifyRegistry | scripts/quality/verify_port_allocations.py:334-354 | the verifier's reports, in order |
| PortCollisions.OverlapsIsSharing | scripts/quality/verify_port_allocations.py:54-60 | intervals overlap exactly when they share a port |
| PortCollisions.AllocationChecked | scripts/quality/verify_port_allocations.py:165-227 | an allocation draws no report exactly when it is sound, field by field |
| PortCollisions.RowsCountPairs | scripts/quality/verify_port_allocations.py:283-296 | the pair loop meets every unordered pair once |
| PortCollisions.PairsAreClashes | scripts/quality/verify_port_allocations.py:282-296 | the pairs of all groups are the clashing pairs of the whole registry |
| PortCollisions.ReportsAreExactlyTheClashes | scripts/quality/verify_port_allocations.py:277-296 | the number of collision reports is the number of unordered pairs of active bindings in one environment and protocol that share a port |
| PortCollisions.VerdictIsExact | scripts/quality/verify_port_allocations.py:334-354 | a registry passes if and only if it is version 1, every allocation is sound, ids are distinct and no two bindings clash |
| PortFacts.CollisionsByTheFile | scripts/quality/verify_port_allocations.py:230-296 | the number of collision reports is the number of pairs of positions in the file whose bindings are active in one environment, of one protocol, and share a port |
| PortFacts.VerdictByTheFile | scripts/quality/verify_port_allocations.py:334-354 | a registry passes if and only if it is in order, mapping by mapping: types, numbers, names, ids, internal containers and no two bindings that cannot both be up |
| PortFacts.ReportsNameThePairs | scripts/quality/verify_port_allocations.py:277-296 | a collision is reported exactly for such a pair, with its environment, protocol, allocations and ports, the earlier first |
| PortReports.ReportIsWhatIsWrong | scripts/quality/verify_port_allocations.py:165-354 | something is reported if and only if it is wrong with the file, and where it is: any schema fault, duplicate id, internal container on the host, or collision |
| PortCollisions.PortBudget | scripts/quality/verify_port_allocations.py:277-296 | in a passing registry the active intervals of one environment and protocol sum to at most 65535 ports |
| ClaimsService.Database.constructor | services/claims/src/claims/infrastructure/memory.py:194-203 | the rows start empty |
| ClaimsService.Database.FindByReference | services/claims/src/claims/infrastructure/memory.py:49-53 | the first claim with the reference |
| ClaimsService.Database.FindOpenForParcel | services/claims/src/claims/infrastructure/memory.py:55-59 | an open claim for the parcel, if there is one |
| ClaimsService.Database.FindIncidentByReference | services/claims/src/claims/infrastructure/memory.py:118-122 | the first incident with the reference |
| ClaimsService.Database.SaveClaim | services/claims/src/claims/infrastructure/memory.py:43-44 | a known id is replaced in its place, a new one goes to the end |
| ClaimsService.Database.SaveIncident | services/claims/src/claims/infrastructure/memory.py:112-113 | the same for incidents |
| ClaimsService.Database.NextSequenceForDay | services/claims/src/claims/infrastructure/memory.py:22-35 | one daily series for both kinds |
| ClaimsService.ClaimService.FileClaim | services/claims/src/claims/application/claim_service.py:72-137 | filing, with its refusals in order |
| ClaimsService.ClaimService.Withdraw | services/claims/src/claims/application/claim_service.py:139-159 | withdrawing one's own open claim |
| ClaimsService.ClaimService.RequestReturn | services/claims/src/claims/application/claim_service.py:163-173 | always refused |
| ClaimsService.ClaimService.StartReview | services/claims/src/claims/application/claim_service.py:177-206 | starting a review sets the custody flag afresh |
| ClaimsService.ClaimService.MarkUnderReview | services/claims/src/claims/application/claim_service.py:196-200 | the changes to the claim, field by field, are those of the accepted command |
| ClaimsService.ClaimService.RecordCustodyReview | services/claims/src/claims/application/claim_service.py:208-227 | recording that the custody records were read |
| ClaimsService.ClaimService.Approve | services/claims/src/claims/application/claim_service.py:231-268 | approving, with its refusals in order |
| ClaimsService.ClaimService.MarkApproved | services/claims/src/claims/application/claim_service.py:258-262 | the changes to the claim, field by field, are those of the accepted command |
| ClaimsService.ClaimService.Reject | services/claims/src/claims/application/claim_service.py:270-310 | rejecting, with its refusals in order |
| ClaimsService.ClaimService.MarkRejected | services/claims/src/claims/application/claim_service.py:299-304 | the changes to the claim, field by field, are those of the accepted command |
| ClaimsService.IncidentService.Report | services/claims/src/claims/application/incident_service.py:53-98 | reporting an incident |
| ClaimsService.IncidentService.StartInvestigation | services/claims/src/claims/application/incident_service.py:102-109 | starting an investigation |
| ClaimsService.IncidentService.Resolve | services/claims/src/claims/application/incident_service.py:111-130 | resolving with a note |
| ClaimsService.IncidentService.Advance | services/claims/src/claims/application/incident_service.py:251-280 | the shared step of both |
| ClaimsService.IncidentService.Moved | services/claims/src/claims/application/incident_service.py:265-274 | the changes to the incident, field by field, are those of the accepted command |
| Claims.ReferenceIsInjective | services/claims/src/claims/domain/value_objects.py:188-190 | a reference names one day and one number |
| Claims.DecideKeepsChecks | services/claims/alembic/versions/w28_claims_core_001.py:80-116 | every accepted command on a claim keeps every CHECK of its row and its identity columns |
| Claims.AdvanceKeepsChecks | services/claims/alembic/versions/w28_claims_core_001.py:193-209 | the same for incidents |
| Claims.NewReferenceIsFree | services/claims/alembic/versions/w28_claims_core_001.py:223-233 | the next reference is on no claim and no incident |
| Claims.FileClaimKeeps | services/claims/src/claims/application/claim_service.py:93-137 | filing keeps all constraints, appends one submitted claim, or changes nothing |
| Claims.OnClaimKeeps | services/claims/src/claims/application/claim_service.py:139-310 | a command on a claim keeps all constraints and changes that row only, or nothing |
| Claims.ReportIncidentKeeps | services/claims/src/claims/application/incident_service.py:67-98 | reporting keeps all constraints, appends one incident, or changes nothing |
| Claims.OnIncidentKeeps | services/claims/src/claims/application/incident_service.py:251-280 | a command on an incident keeps all constraints and changes that row only, or nothing |
| ClaimRuns.StepIsSound | services/claims/src/claims/application/claim_service.py:105-137 | a refused command leaves every row as it was, although rollback undoes nothing in memory |
| ClaimRuns.EveryStateIsSound | services/claims/alembic/versions/w28_claims_core_001.py:80-127 | every reachable state meets every CHECK, has unique references and ids, and at most one open claim per parcel |
| ClaimRuns.OutcomesAreFinal | services/claims/src/claims/domain/value_objects.py:66-78 | approved, rejected and resolved rows never change again, withdrawn stays withdrawn, no row is lost |
| ClaimRuns.WithdrawnRowsStillChange | services/claims/src/claims/application/claim_service.py:208-227 | on a withdrawn claim exactly a custody review by someone allowed is still accepted, and what it changes |
| ClaimRuns.WithdrawnRowsChangeOnlyByReview | services/claims/src/claims/application/claim_service.py:139-310 | over every run a withdrawn row stays exactly as it is if and only if nobody allowed records a custody review of it |
| ClaimRuns.NoDecisionWithoutReview | services/claims/src/claims/application/claim_service.py:3-7 | behind every decision lies an accepted start of review, then an accepted custody assertion, then the decision, each by someone allowed |
| ClaimRuns.EarlyCustodyReviewIsForgotten | services/claims/src/claims/application/claim_service.py:196-200 | a custody review recorded before the review starts does not count |
| ClaimRuns.ApprovalIsExactlyForReviewedClaims | services/claims/src/claims/application/claim_service.py:239-264 | when an approval is accepted, and that its liability check never fires |
| ClaimRuns.OneOpenClaimAtATime | services/claims/src/claims/application/claim_service.py:107-109 | a proper filing is refused if and only if the parcel has an open claim |
| ClaimFacts.CommandsAreAcceptedExactly | services/claims/src/claims/application/claim_service.py:139-310 | a command on a claim is accepted if and only if role, status, owner, amount, reason and review allow it; then it sets exactly its fields on that row, and nothing else changes |
| ClaimFacts.RefusalsAreTrue | services/claims/src/claims/application/claim_service.py:139-310 | every refusal names a condition that fails |
| ClaimFacts.StrangersLearnNothing | services/claims/src/claims/application/claim_service.py:187-188 | who lacks the role gets the same refusal whatever the claims are |
| ClaimFacts.UnknownIsNotFound | services/claims/src/claims/application/claim_service.py:447-452 | a reference no claim has is refused as not found, unless the command would be refused on any claim |
| ClaimFacts.ClaimsAreFiledExactly | services/claims/src/claims/application/claim_service.py:93-137 | a claim is filed if and only if code, photographs, boundary and parcel allow it; its row says what was filed and takes the day's next reference |
| ClaimFacts.FilingRefusalsAreTrue | services/claims/src/claims/application/claim_service.py:93-109 | a refused filing names what is wrong, and the claim that is open already |
| ClaimFacts.ClaimsTellTheirRun | services/claims/src/claims/application/claim_service.py:72-310 | over every run a claim row says what was filed; its version counts the accepted commands; a closed one holds exactly the amount, or the reason and stripped note, the decider and the time of the command that closed it; reviewer and custody flag are the last review's |
| ClaimFacts.ClosedOnce | services/claims/src/claims/application/claim_service.py:139-310 | over every run no claim is closed twice |
| ClaimFacts.StepsAreAcceptedExactly | services/claims/src/claims/application/incident_service.py:102-130 | a step on an incident is accepted if and only if operations takes it from a status that allows it, with a note; then it sets exactly its fields |
| ClaimFacts.IncidentsAreReportedExactly | services/claims/src/claims/application/incident_service.py:67-98 | an incident is reported if and only if the parcel it is about is named; its row says what was reported |
| ClaimFacts.IncidentsTellTheirRun | services/claims/src/claims/application/incident_service.py:67-280 | over every run an incident row says what was reported, when it was investigated, and by whom, when and with which note it was resolved |
| ClaimFacts.ReferencesAreConsecutive | services/claims/src/claims/infrastructure/memory.py:22-35 | a day's references are numbered without a gap over claims and incidents together; a refused command takes no number |
| OperationsView.SortedIsOrdered | services/claims/src/claims/application/incident_service.py:245-247 | the view's sort orders and permutes |
| OperationsView.SortedIsStable | services/claims/src/claims/application/incident_service.py:245-247 | and keeps ties in their order |
| OperationsView.ListedAreTheNewest | services/claims/src/claims/infrastructure/memory.py:79-87 | all claims up to 200, and none left out is newer than one listed |
| OperationsView.ViewIsTheSortedRows | services/claims/src/claims/application/incident_service.py:196-247 | the view is a stably sorted permutation of listed claims and open incidents |
| OperationsView.ViewShowsExactly | services/claims/src/claims/application/incident_service.py:196-247 | the view shows the newest 200 claims and every open incident, each field by field, amounts only to who may see them, the oldest first |
| OperationsView.AmountsDoNotLeak | services/claims/src/claims/application/incident_service.py:205-226 | to whoever may not see amounts, stores that differ only in amounts look the same |
| OperationsView.AmountsAreForNonDrivers | services/claims/src/claims/ports/authorization.py:106-116 | a driver never sees an amount; who may, sees each claim's own |
| OperationsView.HeldWhileReported | services/claims/src/claims/application/incident_service.py:179-192 | a parcel is held exactly while an open incident names it |
| OperationsView.ResolvingReleases | services/claims/src/claims/application/incident_service.py:111-130 | resolving lets it go exactly when no other open incident names it |
| Impact.ParseChangedFiles | scripts/ci/path_impact.py:293-312 | the changes of the lines, two for a rename, none for blanks and comments |
| Impact.CalculateImpact | scripts/ci/path_impact.py:339-475 | the scope is that of the set of changed paths: full validation exactly for a path that is neither a service's nor documentation, and both test suites with it |
| Impact.ImpactResult.FinalizeScope | scripts/ci/path_impact.py:478-496 | both suites run under full validation or for a path of their own |
| Impact.ImpactResult.Record | scripts/ci/path_impact.py:397-410 | what one classified change adds |
| Impact.ImpactResult.RecordAll | scripts/ci/path_impact.py:391-414 | the loop collects exactly the categories, services, packages and unknown paths |
| Impact.ImpactResult.NoteBroadChanges | scripts/ci/path_impact.py:438-463 | a flagged category, a package or a lock file makes the result fail-safe |
| Impact.ImpactResult.DecideScope | scripts/ci/path_impact.py:465-473 | full validation is being fail-safe |
| Impact.BroadIsFailSafe | scripts/ci/path_impact.py:427-463 | the fail-safe conditions together say that some path is neither a service's nor documentation |
| ImpactLaws.ClassifierIsLawful | scripts/ci/path_impact.py:209-290 | every path the final checks look for by name already calls for full validation |
| ImpactLaws.FullValidationExactly | scripts/ci/path_impact.py:430-475 | full validation is off if and only if every changed path of every line is a service's or documentation |
| ImpactText.CategoryByText | scripts/ci/path_impact.py:209-290 | each path's category by its text alone: the rules, though tried in order, are one table in which every path fits one category |
| ImpactText.AffectedByText | scripts/ci/path_impact.py:256-284 | which service and which package a path affects, by its text alone |
| ImpactText.ScopeByText | scripts/ci/path_impact.py:339-496 | every part of the scope read off the changed paths: full validation is off exactly when each lies below a service, in a known service's tests, or is documentation |
| ImpactText.PathsOfALine | scripts/ci/path_impact.py:293-312 | the paths a change line stands for, by its columns |
| ImpactLaws.OrderDoesNotMatter | scripts/ci/path_impact.py:293-475 | neither order nor repetition of the lines matters |
| ImpactLaws.AddingLinesNeverNarrows | scripts/ci/path_impact.py:293-475 | more lines never turn a check off nor drop an affected service or package |
| ImpactLaws.NormalizingTwice | scripts/ci/path_impact.py:185-189 | normalizing is idempotent exactly for paths where dropping leading "./" brings no space to the front |
| ImpactLaws.DottedSpaceIsNotNormal | scripts/ci/path_impact.py:185-189 | a family of paths for which it is not |
| Regions.Replaced | scripts/quality/verify_requirement_traceability.py:164-168 | the fences stay and the body stands between them |
| Regions.LeftAlone | scripts/quality/verify_requirement_traceability.py:164-168 | a document is left as it is if and only if the region already holds the body |
| Regions.ReplacingTwice | scripts/quality/verify_requirement_traceability.py:164-168 | twice is once if and only if the body does not hold the closing fence |
| Regions.OtherRegionStays | scripts/quality/verify_requirement_traceability.py:164-168 | replacing one region leaves the other as it was |
| Regions.RenderingIsAFixpoint | scripts/quality/verify_requirement_traceability.py:228-233 | what has been rendered renders to itself |
| Regions.OutsideIsUnchanged | scripts/quality/verify_requirement_traceability.py:228-233 | every character outside both regions stays, in order |
| Regions.OutsideIsUnchangedBackwards | scripts/quality/verify_requirement_traceability.py:228-233 | the same when the region rewritten second stands first |
| Regions.CheckPassesExactly | scripts/quality/verify_requirement_traceability.py:234-243 | the check passes if and only if both regions hold their tables |
| Regions.CheckDocument | scripts/quality/verify_requirement_traceability.py:221-243 | the document step with and without --write, the missing fences included |
| Regions.WriteThenCheck | scripts/quality/verify_requirement_traceability.py:228-243 | with the verifier's own markers, after --write the same tables pass the check |

## Left out

- Audit consumer: a row's uuid4 `id`, logging, transport handles and `classify_retry_error` (only logged) are not
  modelled; rows are values, since the source copies them before anyone else can see them.
- Audit consumer: one handling at a time; the injected poison failure stands for a projection port that raises it,
  which the in-memory store itself never does.
- Audit consumer: the PostgreSQL store and its JSON columns, whose transactions copy nothing.
- AuditStore.MemoryAuditStore.Begin: how many calls deepcopy, the scan and the decoder may nest are parameters, their
  calls a level those of CPython 3.12; what an observation holds beside its metadata is flat and taken to fit, and a
  handler entered with no room at all is not modelled.
- Validation.SanitizeMetadata: forbidden keys and secret patterns are abstract predicates, and the iteration order of
  a dictionary is a parameter.
- Timestamps.ParseOfFormat: only UTC times; other shapes and offsets go to `fromisoformat`, an abstract function;
  years below 1000 are printed unpadded and not claimed to come back.
- Envelope.ParseOfWire: works on decoded dictionaries; JSON text, the encoded size and pydantic's conversions are
  parameters with stated laws; metadata is a plain dictionary, and metadata handed over as an EnvelopeMetadata object,
  which is dumped without its null extras, is not modelled.
- Envelope.RewriteIsIdempotent: a wire whose only name beyond the known ones is a key literally called
  `unknown_fields` is excluded.
- InboxSpec.UnhandledExactly: str() of a value is total here; in the source a list or object nested to the very edge
  of what the decoder accepts may still raise RecursionError when it is turned into text. A number with a fraction or
  an exponent is known by its repr() only.
- Ledger.BooksAlwaysBalance: serial transactions only, savepoints taken as the transaction without the work they undo;
  concurrent inserts into one entry, disabling or dropping the triggers and other DDL, the remaining columns and the
  other tables of the migration are not modelled, nor any tie between an entry's total and its postings.
- ApiDocs.Merge: the header constants, copying and the printed warning about shared paths; a service's schemas and
  paths are given as maps, services come in sorted order, references other than `$ref` to schemas are not followed.
- Ports.VerifyRegistry: reads mappings by their known keys, so YAML parsing, message texts and floats are not
  modelled; a list or mapping where the source looks a word up in a frozen set (a TypeError there) cannot be written
  down.
- Ports.CheckHostCollisions: the order of the groups is any enumeration of the keys, since only the printed output
  sorts.
- Claims: messages, summaries for one reader, `merchant_id`, the content type of evidence, the outbox and the SQL
  adapters; objects handed out by the in-memory rows share later changes, values here do not; column widths (a
  compensation above BIGINT) are not modelled.
- Claims.FileClaimKeeps: two filings at the same instant in the database, which the partial unique index decides, are
  not modelled; the shape of a tracking code is a parameter.
- Impact.CalculateImpact: only explicit change lines; running git and the fail-safe answers when it fails are left
  out, as are the texts of the reasons; lists the source keeps sorted without repeats are sets.
- ImpactLaws.ClassifierIsLawful: discovering services on disk is a parameter.
- Regions.CheckDocument: rendering the tables from the catalogue is not modelled, any text stands for them.
- FastAPI routes, workers, brokers, settings and health probes, governance and boundary scanners, the other services:
  wiring or checks with no state behind them.
