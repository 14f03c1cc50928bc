/** Validation of a decoded envelope against the A2 contract, and the metadata allow-list. */
module Validation {
  import opened Wrappers
  import opened Json
  import opened Messaging
  import opened AuditTypes
  import Timestamps
  import Envelope

  /**
   ContractRejection, whose code and detail end up on the quarantined row, or a RecursionError nothing here catches.
   */
  datatype Problem = Rejection(code: string, detail: string) | TooDeep

  function Mismatch(detail: string): Problem {
    Rejection("SCHEMA_MISMATCH", detail)
  }

  const MAX_METADATA_KEYS := 32

  const FORBIDDEN_CDC_KEYS: set<string> :=
    {"lsn", "xid", "txid", "source_op", "before", "after", "row_data", "raw_row", "change_data", "op", "cdc_payload"}

  const REQUIRED_FIELDS: seq<string> :=
    ["source_table", "source_pk", "source_position", "source_module", "audit_entry_id", "action", "entity_type",
     "entity_id", "actor_type", "source", "occurred_at", "bridge_mapper_version"]

  // ---------------------------------------------------------------- metadata

  /**
   Text is matched against the secret patterns; a list is secret-like when an item is; nothing else is looked into.
   */
  predicate SecretLike(out: Outside, j: Json) {
    match j
    case Str(s) => out.secretLike(s)
    case Arr(items) => exists i :: 0 <= i < |items| && SecretLike(out, items[i])
    case _ => false
  }

  /** How the scan of a value ends: each level of lists takes one call, and with none left Python raises. */
  datatype Scan = Clean | Secret | OutOfFrames

  function ScanValue(out: Outside, j: Json, frames: nat): Scan
    decreases frames, 0
  {
    if frames == 0 then OutOfFrames
    else
      match j
      case Str(s) => if out.secretLike(s) then Secret else Clean
      case Arr(items) => ScanItems(out, items, frames - 1)
      case _ => Clean
  }

  /** The items in order, up to the first that raises. */
  function ScanItems(out: Outside, items: seq<Json>, frames: nat): Scan
    decreases frames, |items|
  {
    if items == [] then Clean
    else
      var first := ScanValue(out, items[0], frames);
      if first.Clean? then ScanItems(out, items[1..], frames) else first
  }

  /** No list nests deeper than the calls there are. */
  predicate Shallow(j: Json, frames: nat) {
    frames > 0 && (j.Arr? ==> forall i :: 0 <= i < |j.items| ==> Shallow(j.items[i], frames - 1))
  }

  /** The scan passes exactly the values that are shallow enough and not secret-like. */
  lemma {:induction false} ScanPasses(out: Outside, j: Json, frames: nat)
    ensures ScanValue(out, j, frames).Clean? <==> Shallow(j, frames) && !SecretLike(out, j)
    ensures ScanValue(out, j, frames).Secret? ==> SecretLike(out, j)
    ensures ScanValue(out, j, frames).OutOfFrames? ==> !Shallow(j, frames)
    decreases frames, 0
  {
    if frames > 0 && j.Arr? {
      ScanPassesItems(out, j.items, frames - 1);
    }
  }

  lemma {:induction false} ScanPassesItems(out: Outside, items: seq<Json>, frames: nat)
    ensures ScanItems(out, items, frames).Clean? <==>
      forall i :: 0 <= i < |items| ==> Shallow(items[i], frames) && !SecretLike(out, items[i])
    ensures ScanItems(out, items, frames).Secret? ==> exists i :: 0 <= i < |items| && SecretLike(out, items[i])
    ensures ScanItems(out, items, frames).OutOfFrames? ==> exists i :: 0 <= i < |items| && !Shallow(items[i], frames)
    decreases frames, |items|
  {
    if items != [] {
      ScanPasses(out, items[0], frames);
      ScanPassesItems(out, items[1..], frames);
      assert forall i :: 0 < i < |items| ==> items[i] == items[1..][i - 1];
    }
  }

  function KeyProblem(out: Outside, key: string, value: Json): Option<Problem> {
    if out.forbiddenKey(key) then Some(Mismatch("metadata contains a forbidden secret key"))
    else
      match ScanValue(out, value, out.scanFrames)
      case Secret => Some(Mismatch("metadata contains a secret-like value"))
      case OutOfFrames => Some(TooDeep)
      case Clean => None
  }

  predicate KeyIsFine(out: Outside, key: string, value: Json) {
    !out.forbiddenKey(key) && !SecretLike(out, value) && Shallow(value, out.scanFrames)
  }

  /** The first problem met in iteration order. */
  function FirstProblem(out: Outside, items: seq<(string, Json)>): Option<Problem> {
    if items == [] then None
    else
      var p := KeyProblem(out, items[0].0, items[0].1);
      if p.Some? then p else FirstProblem(out, items[1..])
  }

  /** The dictionary filled by assigning the items one after the other. */
  function Collected(items: seq<(string, Json)>): map<string, Json> {
    if items == [] then map[] else Collected(items[..|items| - 1])[items[|items| - 1].0 := items[|items| - 1].1]
  }

  function Sanitized(out: Outside, value: Option<Json>): Result<map<string, Json>, Problem> {
    if value.None? || value.value.Null? then Ok(map[])
    else if !value.value.Obj? then Err(Mismatch("metadata must be an object"))
    else if |value.value.fields| > MAX_METADATA_KEYS then Err(Mismatch("metadata exceeds allowlisted size"))
    else
      var items := out.itemsInOrder(value.value.fields);
      var p := FirstProblem(out, items);
      if p.Some? then Err(p.value) else Ok(Collected(items))
  }

  lemma {:induction false} ProblemAmongItems(out: Outside, items: seq<(string, Json)>)
    ensures FirstProblem(out, items).None? <==> forall p :: p in items ==> KeyProblem(out, p.0, p.1).None?
  {
    if items != [] {
      ProblemAmongItems(out, items[1..]);
      assert forall p :: p in items <==> p == items[0] || p in items[1..];
    }
  }

  lemma {:induction false} CollectedItems(m: map<string, Json>, items: seq<(string, Json)>)
    requires forall p :: p in items ==> p.0 in m && m[p.0] == p.1
    ensures forall k :: k in Collected(items) ==> k in m && Collected(items)[k] == m[k]
    ensures forall p :: p in items ==> p.0 in Collected(items)
  {
    if items != [] {
      CollectedItems(m, items[..|items| - 1]);
    }
  }

  lemma CollectedIsWhole(out: Outside, m: map<string, Json>)
    requires IterationIsFair(out)
    ensures Collected(out.itemsInOrder(m)) == m
  {
    var items := out.itemsInOrder(m);
    forall p | p in items ensures p.0 in m && m[p.0] == p.1 {
      assert (p.0, p.1) in items;
    }
    CollectedItems(m, items);
    forall k | k in m ensures k in Collected(items) {
      assert (k, m[k]) in items;
    }
  }

  /**
   Accepted metadata is the metadata that came in: at most 32 keys, none forbidden, each value shallow and not
   secret-like.
   */
  lemma SanitizedMeansClean(out: Outside, m: map<string, Json>)
    requires IterationIsFair(out)
    ensures Sanitized(out, Some(Obj(m))) == Ok(m) <==>
      |m| <= MAX_METADATA_KEYS && forall k :: k in m ==> KeyIsFine(out, k, m[k])
    ensures Sanitized(out, Some(Obj(m))).Ok? ==> Sanitized(out, Some(Obj(m))) == Ok(m)
  {
    var items := out.itemsInOrder(m);
    CollectedIsWhole(out, m);
    ProblemAmongItems(out, items);
    forall k | k in m ensures KeyIsFine(out, k, m[k]) <==> KeyProblem(out, k, m[k]).None? {
      ScanPasses(out, m[k], out.scanFrames);
    }
    if FirstProblem(out, items).None? {
      forall k | k in m ensures KeyProblem(out, k, m[k]).None? {
        assert (k, m[k]) in items;
      }
    }
    forall p | p in items ensures p.0 in m && m[p.0] == p.1 {
      assert (p.0, p.1) in items;
    }
  }

  /** Some value's scan runs out of calls, and everything before it is fine. */
  ghost predicate ScanRunsOut(out: Outside, value: Option<Json>) {
    && value.Some? && value.value.Obj? && |value.value.fields| <= MAX_METADATA_KEYS
    && RunsOutAmong(out, out.itemsInOrder(value.value.fields))
  }

  predicate RunsOutAt(out: Outside, items: seq<(string, Json)>, i: nat)
    requires i < |items|
  {
    && !out.forbiddenKey(items[i].0) && ScanValue(out, items[i].1, out.scanFrames).OutOfFrames?
    && forall j :: 0 <= j < i ==> KeyIsFine(out, items[j].0, items[j].1)
  }

  predicate RunsOutAmong(out: Outside, items: seq<(string, Json)>) {
    exists i :: 0 <= i < |items| && RunsOutAt(out, items, i)
  }

  lemma RunsOutByHead(out: Outside, items: seq<(string, Json)>)
    requires items != []
    ensures RunsOutAmong(out, items) <==>
      RunsOutAt(out, items, 0) || (KeyIsFine(out, items[0].0, items[0].1) && RunsOutAmong(out, items[1..]))
  {
    var rest := items[1..];
    forall i | 0 < i < |items|
      ensures RunsOutAt(out, items, i) <==> KeyIsFine(out, items[0].0, items[0].1) && RunsOutAt(out, rest, i - 1)
    {
      assert forall j :: 0 < j < |items| ==> items[j] == rest[j - 1];
      assert forall j :: 0 <= j < |rest| ==> rest[j] == items[j + 1];
    }
    if i: nat :| i < |rest| && RunsOutAt(out, rest, i) && KeyIsFine(out, items[0].0, items[0].1) {
      assert RunsOutAt(out, items, i + 1);
    }
  }

  lemma {:induction false} FirstTooDeep(out: Outside, items: seq<(string, Json)>)
    ensures FirstProblem(out, items) == Some(TooDeep) <==> RunsOutAmong(out, items)
  {
    if items != [] {
      FirstTooDeep(out, items[1..]);
      ScanPasses(out, items[0].1, out.scanFrames);
      RunsOutByHead(out, items);
    }
  }

  lemma SanitizingEscapes(out: Outside, value: Option<Json>)
    ensures Sanitized(out, value) == Err(TooDeep) <==> ScanRunsOut(out, value)
  {
    if value.Some? && value.value.Obj? {
      FirstTooDeep(out, out.itemsInOrder(value.value.fields));
    }
  }

  // ---------------------------------------------------------------- what acceptance does not see

  /** Secret-like text or a forbidden name, at any depth. */
  predicate Leaks(out: Outside, j: Json) {
    match j
    case Str(s) => out.secretLike(s)
    case Arr(items) => exists i :: 0 <= i < |items| && Leaks(out, items[i])
    case Obj(m) => exists k :: k in m && (out.forbiddenKey(k) || Leaks(out, m[k]))
    case _ => false
  }

  /** A leak inside an object, which the scan does not enter. */
  predicate LeaksUnseen(out: Outside, j: Json) {
    match j
    case Arr(items) => exists i :: 0 <= i < |items| && LeaksUnseen(out, items[i])
    case Obj(_) => Leaks(out, j)
    case _ => false
  }

  lemma {:induction false} LeakIsSeenOrNot(out: Outside, j: Json)
    ensures Leaks(out, j) <==> SecretLike(out, j) || LeaksUnseen(out, j)
    decreases j
  {
    if j.Arr? {
      forall i | 0 <= i < |j.items|
        ensures Leaks(out, j.items[i]) <==> SecretLike(out, j.items[i]) || LeaksUnseen(out, j.items[i])
      {
        LeakIsSeenOrNot(out, j.items[i]);
      }
    }
  }

  /** Accepted metadata leaks exactly when an object nested in one of its values does. */
  lemma AcceptedLeaksExactly(out: Outside, m: map<string, Json>)
    requires IterationIsFair(out) && Sanitized(out, Some(Obj(m))).Ok?
    ensures Leaks(out, Obj(m)) <==> exists k :: k in m && LeaksUnseen(out, m[k])
  {
    SanitizedMeansClean(out, m);
    forall k | k in m ensures KeyIsFine(out, k, m[k]) && (Leaks(out, m[k]) <==> LeaksUnseen(out, m[k])) {
      LeakIsSeenOrNot(out, m[k]);
    }
  }

  /** It can: one object around it, and any secret under any name is accepted. */
  lemma NestedSecretIsAccepted(out: Outside, key: string, inner: string, secret: string)
    requires IterationIsFair(out) && !out.forbiddenKey(key) && out.scanFrames > 0
    ensures var m := map[key := Obj(map[inner := Str(secret)])];
      && Sanitized(out, Some(Obj(m))) == Ok(m)
      && (out.forbiddenKey(inner) || out.secretLike(secret) ==> Leaks(out, Obj(m)))
  {
    var nested := map[inner := Str(secret)];
    var m := map[key := Obj(nested)];
    SanitizedMeansClean(out, m);
    assert |m| == 1;
    if out.forbiddenKey(inner) || out.secretLike(secret) {
      assert inner in nested && nested[inner] == Str(secret);
      assert Leaks(out, Str(secret)) <==> out.secretLike(secret);
      assert Leaks(out, Obj(nested));
      assert key in m && m[key] == Obj(nested);
    }
  }

  /** An object in an object, or a list in a list, so many levels deep. */
  function Nested(lists: bool, name: string, levels: nat): Json {
    if levels == 0 then Null
    else if lists then Arr([Nested(lists, name, levels - 1)])
    else Obj(map[name := Nested(lists, name, levels - 1)])
  }

  lemma {:induction false} NestedCopies(lists: bool, name: string, levels: nat, frames: int)
    ensures Copyable(Nested(lists, name, levels), frames) <==> frames >= 2 * (levels + 1)
  {
    if levels > 0 {
      NestedCopies(lists, name, levels - 1, frames - 2);
      var inner := Nested(lists, name, levels - 1);
      if lists {
        var items := [inner];
        assert Nested(lists, name, levels) == Arr(items) && items[0] == inner;
      } else {
        var m := map[name := inner];
        assert Nested(lists, name, levels) == Obj(m) && name in m && m[name] == inner;
      }
    }
  }

  lemma {:induction false} NestedScans(out: Outside, lists: bool, name: string, levels: nat, frames: nat)
    ensures Shallow(Nested(lists, name, levels), frames) <==> frames > if lists then levels else 0
    ensures !SecretLike(out, Nested(lists, name, levels))
  {
    if levels > 0 {
      NestedScans(out, lists, name, levels - 1, if frames > 0 then frames - 1 else 0);
      var items := [Nested(lists, name, levels - 1)];
      assert lists ==> Nested(lists, name, levels) == Arr(items) && items[0] == Nested(lists, name, levels - 1);
    }
  }

  /**
   Metadata that is accepted and stored but cannot be copied: objects nested past what deepcopy can follow, which the
   scan never enters; and lists too, because the scan takes one call a level where the copy takes two.
   */
  lemma DeepMetadataIsAccepted(out: Outside, key: string, lists: bool, name: string, levels: nat)
    requires IterationIsFair(out) && !out.forbiddenKey(key)
    ensures var m := map[key := Nested(lists, name, levels)];
      && (Sanitized(out, Some(Obj(m))) == Ok(m) <==> out.scanFrames > if lists then levels else 0)
      && (MetadataCopyable(m, out.copyFrames) <==> out.copyFrames >= 2 * (levels + 1))
  {
    var m := map[key := Nested(lists, name, levels)];
    SanitizedMeansClean(out, m);
    NestedScans(out, lists, name, levels, out.scanFrames);
    NestedCopies(lists, name, levels, out.copyFrames);
    assert |m| == 1 && key in m && m[key] == Nested(lists, name, levels);
  }

  /** The loop that fills the cleaned dictionary, leaving at the first problem. */
  method SanitizeMetadata(out: Outside, value: Option<Json>) returns (r: Result<map<string, Json>, Problem>)
    ensures r == Sanitized(out, value)
  {
    if value.None? || value.value.Null? {
      return Ok(map[]);
    }
    if !value.value.Obj? {
      return Err(Mismatch("metadata must be an object"));
    }
    var m := value.value.fields;
    if |m| > MAX_METADATA_KEYS {
      return Err(Mismatch("metadata exceeds allowlisted size"));
    }
    var items := out.itemsInOrder(m);
    var cleaned: map<string, Json> := map[];
    for i := 0 to |items|
      invariant cleaned == Collected(items[..i])
      invariant FirstProblem(out, items) == FirstProblem(out, items[i..])
    {
      var p := KeyProblem(out, items[i].0, items[i].1);
      assert items[i..][1..] == items[i + 1..];
      if p.Some? {
        return Err(p.value);
      }
      cleaned := cleaned[items[i].0 := items[i].1];
      assert items[..i + 1][..i] == items[..i];
    }
    assert items[..|items|] == items;
    r := Ok(cleaned);
  }

  // ---------------------------------------------------------------- payload

  predicate IsMissing(payload: map<string, Json>, field: string) {
    field !in payload || payload[field] == Null || payload[field] == Str("")
  }

  /** The first required field that is absent, null or empty. */
  function FirstMissing(payload: map<string, Json>, fields: seq<string>): Option<string> {
    if fields == [] then None
    else if IsMissing(payload, fields[0]) then Some(fields[0])
    else FirstMissing(payload, fields[1..])
  }

  lemma {:induction false} NothingMissing(payload: map<string, Json>, fields: seq<string>)
    ensures FirstMissing(payload, fields).None? <==> forall f :: f in fields ==> !IsMissing(payload, f)
  {
    if fields != [] {
      NothingMissing(payload, fields[1..]);
      assert forall f :: f in fields <==> f == fields[0] || f in fields[1..];
    }
  }

  method FindMissing(payload: map<string, Json>) returns (r: Option<string>)
    ensures r == FirstMissing(payload, REQUIRED_FIELDS)
  {
    for i := 0 to |REQUIRED_FIELDS|
      invariant FirstMissing(payload, REQUIRED_FIELDS) == FirstMissing(payload, REQUIRED_FIELDS[i..])
    {
      assert REQUIRED_FIELDS[i..][1..] == REQUIRED_FIELDS[i + 1..];
      if IsMissing(payload, REQUIRED_FIELDS[i]) {
        return Some(REQUIRED_FIELDS[i]);
      }
    }
    r := None;
  }

  function Text(out: Outside, payload: map<string, Json>, field: string): string {
    if field in payload then out.codec.toText(payload[field]) else ""
  }

  function UuidIn(out: Outside, payload: map<string, Json>, field: string): Option<Uuid> {
    out.codec.parseUuid(Text(out, payload, field))
  }

  /** Python truthiness of an optional payload value. */
  predicate Truthy(payload: map<string, Json>, field: string) {
    field in payload && match payload[field]
      case Null => false
      case Bool(b) => b
      case Num(n) => n != 0
      case Float(repr) => repr != "0.0" && repr != "-0.0"
      case Str(s) => s != ""
      case Arr(items) => items != []
      case Obj(fields) => fields != map[]
  }

  // ---------------------------------------------------------------- the contract

  /** Where the delivery came from. */
  function TransportProblem(c: Contract, d: Delivery): (p: Option<Problem>)
    ensures p.Some? ==> p.value.Rejection?
  {
    if d.subject != c.subject then Some(Rejection("SUBJECT_FORBIDDEN", "delivered subject is not the A2 subject"))
    else if d.stream != c.stream then Some(Rejection("SUBJECT_FORBIDDEN", "delivered stream is not HUDHUD_AUDIT"))
    else if d.consumerName != c.durableConsumer then
      Some(Rejection("SUBJECT_FORBIDDEN", "durable consumer is not audit_bridge_entry_v1"))
    else None
  }

  /** What the envelope claims to be. */
  function TypeProblem(c: Contract, e: Envelope.EventEnvelope): (p: Option<Problem>)
    ensures p.Some? ==> p.value.Rejection?
  {
    if e.eventType != c.eventType then Some(Mismatch("event_type is not the A2 observation type"))
    else if e.eventVersion != c.eventVersion then Some(Mismatch("event_version is not 1"))
    else if e.producer != c.producer then Some(Mismatch("producer is not legacy_bridge"))
    else if e.schemaUri.Some? && e.schemaUri.value != c.schemaUri then
      Some(Mismatch("schema_uri does not match A2 registry"))
    else None
  }

  /** An integration message that is about no aggregate. */
  function KindProblem(e: Envelope.EventEnvelope): (p: Option<Problem>)
    ensures p.Some? ==> p.value.Rejection?
  {
    if e.messageKind != Envelope.Integration then Some(Mismatch("message_kind is not integration"))
    else if e.aggregateScope != Envelope.NonAggregate then Some(Mismatch("aggregate_scope must be non_aggregate"))
    else if e.aggregateType.Some? || e.aggregateId.Some? then Some(Mismatch("aggregate identity must be absent"))
    else if e.aggregateVersion.Some? then Some(Mismatch("aggregate_version must not be invented"))
    else None
  }

  /** Where the delivery came from, and then what the envelope claims to be. */
  function HeaderProblem(c: Contract, e: Envelope.EventEnvelope, d: Delivery): (p: Option<Problem>)
    ensures p.Some? ==> p.value.Rejection?
  {
    if TransportProblem(c, d).Some? then TransportProblem(c, d)
    else if TypeProblem(c, e).Some? then TypeProblem(c, e)
    else KindProblem(e)
  }

  /** The source row the payload names, once the event id is known to be its identity. */
  function SourceRow(out: Outside, c: Contract, e: Envelope.EventEnvelope): (r: Result<Uuid, Problem>)
    ensures r.Err? ==> r.error.Rejection?
  {
    var p := e.payload;
    var table, pk, entry := Text(out, p, "source_table"), UuidIn(out, p, "source_pk"), UuidIn(out, p, "audit_entry_id");
    if table != c.sourceTable then Err(Mismatch("source_table is not audit_logs"))
    else if pk.None? then Err(Mismatch("source_pk is not a UUID"))
    else if entry.None? then Err(Mismatch("audit_entry_id is not a UUID"))
    else if entry != pk then Err(Mismatch("audit_entry_id must equal source_pk"))
    else if ObservationEventId(out.uuid5, c.namespace, c.sourceSystem, table,
                               out.codec.formatUuid(pk.value)) != Some(e.eventId) then
      Err(Mismatch("event_id does not match append-only A2 identity"))
    else Ok(pk.value)
  }

  /** The fields read after the identity is settled. */
  function Compose(out: Outside, c: Contract, e: Envelope.EventEnvelope, pk: Uuid, metadata: map<string, Json>)
    : (r: Result<Message, Problem>)
    ensures r.Err? ==> r.error.Rejection?
  {
    var p := e.payload;
    var actor := if Truthy(p, "actor_id") then UuidIn(out, p, "actor_id") else None;
    var entity, occurred := UuidIn(out, p, "entity_id"),
      Timestamps.ParseUtc(out.codec.otherTime, Text(out, p, "occurred_at"));
    if Truthy(p, "actor_id") && actor.None? then Err(Mismatch("actor_id is not a UUID"))
    else if entity.None? then Err(Mismatch("entity_id is not a UUID"))
    else if occurred.None? then Err(Mismatch("occurred_at is not RFC 3339 UTC"))
    else Ok(Message(
      e.eventId, e.correlationId, c.sourceSystem, Text(out, p, "source_table"), pk, Text(out, p, "source_position"),
      Text(out, p, "source_module"), pk, Text(out, p, "action"), Text(out, p, "entity_type"), entity.value,
      Text(out, p, "actor_type"), actor, Text(out, p, "source"), occurred.value, Text(out, p, "bridge_mapper_version"),
      metadata, e.eventType, e.eventVersion))
  }

  function MetadataOf(e: Envelope.EventEnvelope): Option<Json> {
    if "metadata" in e.payload then Some(e.payload["metadata"]) else None
  }

  /** What is checked before any payload field is read. */
  function EntryProblem(c: Contract, e: Envelope.EventEnvelope, d: Delivery): (p: Option<Problem>)
    ensures p.Some? ==> p.value.Rejection?
  {
    var header, missing := HeaderProblem(c, e, d), FirstMissing(e.payload, REQUIRED_FIELDS);
    if header.Some? then header
    else if FORBIDDEN_CDC_KEYS * e.payload.Keys != {} then Some(Mismatch("payload contains raw CDC fields"))
    else if missing.Some? then Some(Mismatch("missing required payload field " + missing.value))
    else None
  }

  function Composed(out: Outside, c: Contract, e: Envelope.EventEnvelope, pk: Result<Uuid, Problem>,
                    metadata: Result<map<string, Json>, Problem>): Result<Message, Problem>
  {
    if pk.Err? then Err(pk.error)
    else if metadata.Err? then Err(metadata.error)
    else Compose(out, c, e, pk.value, metadata.value)
  }

  function Validated(out: Outside, c: Contract, e: Envelope.EventEnvelope, d: Delivery): Result<Message, Problem> {
    var entry := EntryProblem(c, e, d);
    if entry.Some? then Err(entry.value) else Composed(out, c, e, SourceRow(out, c, e), Sanitized(out, MetadataOf(e)))
  }

  method ValidateA2Delivery(out: Outside, c: Contract, e: Envelope.EventEnvelope, d: Delivery)
    returns (r: Result<Message, Problem>)
    ensures r == Validated(out, c, e, d)
  {
    var header := HeaderProblem(c, e, d);
    if header.Some? {
      return Err(header.value);
    }
    if FORBIDDEN_CDC_KEYS * e.payload.Keys != {} {
      return Err(Mismatch("payload contains raw CDC fields"));
    }
    var missing := FindMissing(e.payload);
    if missing.Some? {
      return Err(Mismatch("missing required payload field " + missing.value));
    }
    var pk := SourceRow(out, c, e);
    if pk.Err? {
      return Err(pk.error);
    }
    var metadata := SanitizeMetadata(out, MetadataOf(e));
    if metadata.Err? {
      return Err(metadata.error);
    }
    r := Compose(out, c, e, pk.value, metadata.value);
  }

  /** The identity a stored message must have: its event id is derived from its source row, which is its audit entry. */
  ghost predicate HasRowIdentity(out: Outside, c: Contract, m: Message) {
    && m.auditEntryId == m.sourcePk
    && ObservationEventId(out.uuid5, c.namespace, c.sourceSystem, c.sourceTable, out.codec.formatUuid(m.sourcePk)) ==
      Some(m.eventId)
  }

  lemma AcceptedSteps(out: Outside, c: Contract, e: Envelope.EventEnvelope, d: Delivery)
    requires Validated(out, c, e, d).Ok?
    ensures HeaderProblem(c, e, d).None? && FirstMissing(e.payload, REQUIRED_FIELDS).None?
    ensures SourceRow(out, c, e).Ok? && Sanitized(out, MetadataOf(e)).Ok?
    ensures Compose(out, c, e, SourceRow(out, c, e).value, Sanitized(out, MetadataOf(e)).value) ==
      Validated(out, c, e, d)
  {
  }

  /** Validation raises past its caller's handler exactly when it gets as far as a metadata value nested too deep. */
  lemma ValidationEscapesExactly(out: Outside, c: Contract, e: Envelope.EventEnvelope, d: Delivery)
    ensures Validated(out, c, e, d) == Err(TooDeep) <==>
      EntryProblem(c, e, d).None? && SourceRow(out, c, e).Ok? && ScanRunsOut(out, MetadataOf(e))
  {
    SanitizingEscapes(out, MetadataOf(e));
    ComposedEscapes(out, c, e, SourceRow(out, c, e), Sanitized(out, MetadataOf(e)));
  }

  lemma ComposedEscapes(out: Outside, c: Contract, e: Envelope.EventEnvelope, pk: Result<Uuid, Problem>,
                        metadata: Result<map<string, Json>, Problem>)
    requires pk.Err? ==> pk.error.Rejection?
    ensures Composed(out, c, e, pk, metadata) == Err(TooDeep) <==> pk.Ok? && metadata == Err(TooDeep)
  {
  }

  /**
   Acceptance means the right source: transport, producer, type and kind are the contract's, and no field is missing.
   */
  lemma AcceptedIsComplete(out: Outside, c: Contract, e: Envelope.EventEnvelope, d: Delivery)
    requires Validated(out, c, e, d).Ok?
    ensures d.subject == c.subject && d.stream == c.stream && d.consumerName == c.durableConsumer
    ensures e.producer == c.producer && e.eventType == c.eventType && e.messageKind == Envelope.Integration
    ensures forall f :: f in REQUIRED_FIELDS ==> !IsMissing(e.payload, f)
  {
    AcceptedSteps(out, c, e, d);
    NothingMissing(e.payload, REQUIRED_FIELDS);
  }

  lemma RowIdentity(out: Outside, c: Contract, e: Envelope.EventEnvelope)
    requires SourceRow(out, c, e).Ok?
    ensures var pk := SourceRow(out, c, e).value;
      ObservationEventId(out.uuid5, c.namespace, c.sourceSystem, c.sourceTable, out.codec.formatUuid(pk)) ==
        Some(e.eventId)
  {
  }

  lemma ComposeKeeps(out: Outside, c: Contract, e: Envelope.EventEnvelope, pk: Uuid, metadata: map<string, Json>)
    requires Compose(out, c, e, pk, metadata).Ok?
    ensures var m := Compose(out, c, e, pk, metadata).value;
      m.eventId == e.eventId && m.sourcePk == pk && m.auditEntryId == pk && m.safeMetadata == metadata
  {
  }

  /** Acceptance means an unforged identity: the event id is the one derived from the source row. */
  lemma AcceptedHasRowIdentity(out: Outside, c: Contract, e: Envelope.EventEnvelope, d: Delivery)
    requires Validated(out, c, e, d).Ok?
    ensures Validated(out, c, e, d).value.eventId == e.eventId && HasRowIdentity(out, c, Validated(out, c, e, d).value)
  {
    AcceptedSteps(out, c, e, d);
    RowIdentity(out, c, e);
    ComposeKeeps(out, c, e, SourceRow(out, c, e).value, Sanitized(out, MetadataOf(e)).value);
  }

  /** Acceptance means that no metadata was dropped or altered, and that what the scan looks into is without secrets. */
  lemma AcceptedMetadataIsClean(out: Outside, c: Contract, e: Envelope.EventEnvelope, d: Delivery)
    requires IterationIsFair(out) && Validated(out, c, e, d).Ok?
    ensures var m, v := Validated(out, c, e, d).value.safeMetadata, MetadataOf(e);
      && |m| <= MAX_METADATA_KEYS && (forall k :: k in m ==> KeyIsFine(out, k, m[k]))
      && (Leaks(out, Obj(m)) <==> exists k :: k in m && LeaksUnseen(out, m[k]))
      && (v.None? || v.value.Null? || v.value == Obj(m))
  {
    AcceptedSteps(out, c, e, d);
    ComposeKeeps(out, c, e, SourceRow(out, c, e).value, Sanitized(out, MetadataOf(e)).value);
    SanitizedIsClean(out, MetadataOf(e));
  }

  lemma SanitizedIsClean(out: Outside, v: Option<Json>)
    requires IterationIsFair(out) && Sanitized(out, v).Ok?
    ensures var m := Sanitized(out, v).value;
      && |m| <= MAX_METADATA_KEYS && (forall k :: k in m ==> KeyIsFine(out, k, m[k]))
      && (Leaks(out, Obj(m)) <==> exists k :: k in m && LeaksUnseen(out, m[k]))
      && (v.None? || v.value.Null? || v.value == Obj(m))
  {
    if v.Some? && v.value.Obj? {
      SanitizedMeansClean(out, v.value.fields);
      AcceptedLeaksExactly(out, v.value.fields);
    }
  }

  // ---------------------------------------------------------------- acceptance, field by field

  /** The payload has the field, and this is its text. */
  predicate SaysText(out: Outside, p: map<string, Json>, field: string, text: string) {
    field in p && out.codec.toText(p[field]) == text
  }

  predicate SaysUuid(out: Outside, p: map<string, Json>, field: string, id: Uuid) {
    field in p && out.codec.parseUuid(out.codec.toText(p[field])) == Some(id)
  }

  /** Absent, or one of the JSON values that Python takes for false. */
  predicate SaysNothing(p: map<string, Json>, field: string) {
    field !in p || p[field] in [Null, Bool(false), Num(0), Float("0.0"), Float("-0.0"), Str(""), Arr([]), Obj(map[])]
  }

  predicate SaysMetadata(p: map<string, Json>, metadata: map<string, Json>) {
    if "metadata" in p && p["metadata"] != Null then p["metadata"] == Obj(metadata) else metadata == map[]
  }

  /** Every field of a message, as its envelope and payload state it. */
  predicate StatesPayload(out: Outside, c: Contract, e: Envelope.EventEnvelope, m: Message) {
    var p := e.payload;
    && m.eventId == e.eventId && m.correlationId == e.correlationId
    && m.eventType == e.eventType && m.eventVersion == e.eventVersion && m.sourceSystem == c.sourceSystem
    && SaysText(out, p, "source_table", m.sourceTable) && SaysUuid(out, p, "source_pk", m.sourcePk)
    && SaysText(out, p, "source_position", m.sourcePosition) && SaysText(out, p, "source_module", m.sourceModule)
    && SaysUuid(out, p, "audit_entry_id", m.auditEntryId) && SaysText(out, p, "action", m.action)
    && SaysText(out, p, "entity_type", m.entityType) && SaysUuid(out, p, "entity_id", m.entityId)
    && SaysText(out, p, "actor_type", m.actorType) && SaysText(out, p, "source", m.source)
    && (if SaysNothing(p, "actor_id") then m.actorId.None?
        else m.actorId.Some? && SaysUuid(out, p, "actor_id", m.actorId.value))
    && "occurred_at" in p
    && Timestamps.ParseUtc(out.codec.otherTime, out.codec.toText(p["occurred_at"])) == Some(m.occurredAt)
    && SaysText(out, p, "bridge_mapper_version", m.mapperVersion) && SaysMetadata(p, m.safeMetadata)
  }

  lemma FalsyIsNothing(p: map<string, Json>, field: string)
    ensures Truthy(p, field) <==> !SaysNothing(p, field)
  {
  }

  lemma ComposeStates(out: Outside, c: Contract, e: Envelope.EventEnvelope, pk: Uuid, metadata: map<string, Json>)
    requires Compose(out, c, e, pk, metadata).Ok? && SourceRow(out, c, e) == Ok(pk)
    requires HasFields(e.payload) && SaysMetadata(e.payload, metadata)
    ensures StatesPayload(out, c, e, Compose(out, c, e, pk, metadata).value)
  {
    FalsyIsNothing(e.payload, "actor_id");
  }

  /** Every field a message is read from, but for the actor and the metadata. */
  predicate HasFields(p: map<string, Json>) {
    && "source_table" in p && "source_pk" in p && "source_position" in p && "source_module" in p
    && "audit_entry_id" in p && "action" in p && "entity_type" in p && "entity_id" in p && "actor_type" in p
    && "source" in p && "occurred_at" in p && "bridge_mapper_version" in p
  }

  lemma RequiredAreThere(p: map<string, Json>)
    requires FirstMissing(p, REQUIRED_FIELDS).None?
    ensures HasFields(p)
  {
    NothingMissing(p, REQUIRED_FIELDS);
    forall i | 0 <= i < |REQUIRED_FIELDS| ensures REQUIRED_FIELDS[i] in p {
      assert !IsMissing(p, REQUIRED_FIELDS[i]);
    }
    var r := REQUIRED_FIELDS;
    assert r[0] in p && r[1] in p && r[2] in p && r[3] in p && r[4] in p && r[5] in p;
    assert r[6] in p && r[7] in p && r[8] in p && r[9] in p && r[10] in p && r[11] in p;
  }

  lemma SanitizedSays(out: Outside, e: Envelope.EventEnvelope)
    requires IterationIsFair(out) && Sanitized(out, MetadataOf(e)).Ok?
    ensures SaysMetadata(e.payload, Sanitized(out, MetadataOf(e)).value)
  {
    var v := MetadataOf(e);
    if v.Some? && v.value.Obj? {
      SanitizedMeansClean(out, v.value.fields);
    }
  }

  /** An accepted message says of every field what its envelope and payload say. */
  lemma AcceptedStatesPayload(out: Outside, c: Contract, e: Envelope.EventEnvelope, d: Delivery)
    requires IterationIsFair(out) && Validated(out, c, e, d).Ok?
    ensures StatesPayload(out, c, e, Validated(out, c, e, d).value)
  {
    AcceptedSteps(out, c, e, d);
    SanitizedSays(out, e);
    RequiredAreThere(e.payload);
    ComposeStates(out, c, e, SourceRow(out, c, e).value, Sanitized(out, MetadataOf(e)).value);
  }

  // ---------------------------------------------------------------- acceptance, condition by condition

  /** The transport and the envelope are the contract's, and nothing claims to be an aggregate. */
  predicate IsOfTheContract(c: Contract, e: Envelope.EventEnvelope, d: Delivery) {
    && d.subject == c.subject && d.stream == c.stream && d.consumerName == c.durableConsumer
    && e.eventType == c.eventType && e.eventVersion == c.eventVersion && e.producer == c.producer
    && (e.schemaUri.None? || e.schemaUri == Some(c.schemaUri))
    && e.messageKind == Envelope.Integration && e.aggregateScope == Envelope.NonAggregate
    && e.aggregateType.None? && e.aggregateId.None? && e.aggregateVersion.None?
  }

  /** The payload has every required field and none of the raw change-data ones. */
  predicate IsComplete(p: map<string, Json>) {
    && (forall f :: f in FORBIDDEN_CDC_KEYS ==> f !in p)
    && (forall f :: f in REQUIRED_FIELDS ==> f in p && p[f] != Null && p[f] != Str(""))
  }

  /** Source row and audit entry are one UUID, from which the event id is derived. */
  ghost predicate NamesItsRow(out: Outside, c: Contract, e: Envelope.EventEnvelope) {
    SaysText(out, e.payload, "source_table", c.sourceTable) && exists pk :: IsItsRow(out, c, e, pk)
  }

  predicate IsItsRow(out: Outside, c: Contract, e: Envelope.EventEnvelope, pk: Uuid) {
    && SaysUuid(out, e.payload, "source_pk", pk) && SaysUuid(out, e.payload, "audit_entry_id", pk)
    && ObservationEventId(out.uuid5, c.namespace, c.sourceSystem, c.sourceTable, out.codec.formatUuid(pk)) ==
      Some(e.eventId)
  }

  ghost predicate HasCleanMetadata(out: Outside, p: map<string, Json>) {
    "metadata" in p && p["metadata"] != Null ==>
      && p["metadata"].Obj? && |p["metadata"].fields| <= MAX_METADATA_KEYS
      && forall k :: k in p["metadata"].fields ==> KeyIsFine(out, k, p["metadata"].fields[k])
  }

  ghost predicate HasReadableRest(out: Outside, p: map<string, Json>) {
    && (SaysNothing(p, "actor_id") || exists id :: SaysUuid(out, p, "actor_id", id))
    && (exists id :: SaysUuid(out, p, "entity_id", id))
    && "occurred_at" in p && Timestamps.ParseUtc(out.codec.otherTime, out.codec.toText(p["occurred_at"])).Some?
  }

  ghost predicate Acceptable(out: Outside, c: Contract, e: Envelope.EventEnvelope, d: Delivery) {
    && IsOfTheContract(c, e, d) && IsComplete(e.payload) && NamesItsRow(out, c, e)
    && HasCleanMetadata(out, e.payload) && HasReadableRest(out, e.payload)
  }

  lemma ContractExactly(c: Contract, e: Envelope.EventEnvelope, d: Delivery)
    ensures HeaderProblem(c, e, d).None? <==> IsOfTheContract(c, e, d)
  {
  }

  lemma NoneInBoth(names: set<string>, p: map<string, Json>)
    ensures names * p.Keys == {} <==> forall f :: f in names ==> f !in p
  {
    if names * p.Keys == {} {
      forall f | f in names ensures f !in p {
        assert f !in names * p.Keys;
      }
    }
  }

  lemma EntryExactly(c: Contract, e: Envelope.EventEnvelope, d: Delivery)
    ensures EntryProblem(c, e, d).None? <==> IsOfTheContract(c, e, d) && IsComplete(e.payload)
  {
    ContractExactly(c, e, d);
    NothingMissing(e.payload, REQUIRED_FIELDS);
    NoneInBoth(FORBIDDEN_CDC_KEYS, e.payload);
  }

  lemma SourceRowExactly(out: Outside, c: Contract, e: Envelope.EventEnvelope)
    requires HasFields(e.payload)
    ensures SourceRow(out, c, e).Ok? <==> NamesItsRow(out, c, e)
  {
    if SourceRow(out, c, e).Ok? {
      assert IsItsRow(out, c, e, SourceRow(out, c, e).value);
    }
  }

  lemma MetadataExactly(out: Outside, e: Envelope.EventEnvelope)
    requires IterationIsFair(out)
    ensures Sanitized(out, MetadataOf(e)).Ok? <==> HasCleanMetadata(out, e.payload)
  {
    var v := MetadataOf(e);
    if v.Some? && v.value.Obj? {
      SanitizedMeansClean(out, v.value.fields);
    }
  }

  lemma ComposeExactly(out: Outside, c: Contract, e: Envelope.EventEnvelope, pk: Uuid, metadata: map<string, Json>)
    requires HasFields(e.payload)
    ensures Compose(out, c, e, pk, metadata).Ok? <==> HasReadableRest(out, e.payload)
  {
    var p := e.payload;
    FalsyIsNothing(p, "actor_id");
    if UuidIn(out, p, "actor_id").Some? && "actor_id" in p {
      assert SaysUuid(out, p, "actor_id", UuidIn(out, p, "actor_id").value);
    }
    if UuidIn(out, p, "entity_id").Some? {
      assert SaysUuid(out, p, "entity_id", UuidIn(out, p, "entity_id").value);
    }
  }

  /** A delivery is accepted exactly under these conditions, in whatever order they are checked. */
  lemma AcceptedExactly(out: Outside, c: Contract, e: Envelope.EventEnvelope, d: Delivery)
    requires IterationIsFair(out)
    ensures Validated(out, c, e, d).Ok? <==> Acceptable(out, c, e, d)
  {
    EntryExactly(c, e, d);
    if EntryProblem(c, e, d).None? {
      RequiredAreThere(e.payload);
      SourceRowExactly(out, c, e);
      MetadataExactly(out, e);
      ComposedExactly(out, c, e, SourceRow(out, c, e), Sanitized(out, MetadataOf(e)));
    }
  }

  lemma ComposedExactly(out: Outside, c: Contract, e: Envelope.EventEnvelope, pk: Result<Uuid, Problem>,
                        metadata: Result<map<string, Json>, Problem>)
    requires HasFields(e.payload)
    ensures Composed(out, c, e, pk, metadata).Ok? <==> pk.Ok? && metadata.Ok? && HasReadableRest(out, e.payload)
  {
    if pk.Ok? && metadata.Ok? {
      ComposeExactly(out, c, e, pk.value, metadata.value);
    }
  }

  /** What a rejection is filed under: the wrong subject, stream or consumer, or anything else that does not fit. */
  lemma RejectionCodes(out: Outside, c: Contract, e: Envelope.EventEnvelope, d: Delivery)
    requires Validated(out, c, e, d).Err? && Validated(out, c, e, d).error.Rejection?
    ensures Validated(out, c, e, d).error.code == if IsForeign(c, d) then "SUBJECT_FORBIDDEN" else "SCHEMA_MISMATCH"
  {
    TransportCodes(c, d);
    HeaderCodes(c, e, d);
    if EntryProblem(c, e, d).None? {
      SanitizeCodes(out, MetadataOf(e));
      ComposedCodes(out, c, e, SourceRow(out, c, e), Sanitized(out, MetadataOf(e)));
    }
  }

  predicate IsForeign(c: Contract, d: Delivery) {
    d.subject != c.subject || d.stream != c.stream || d.consumerName != c.durableConsumer
  }

  lemma TransportCodes(c: Contract, d: Delivery)
    ensures var p := TransportProblem(c, d);
      (p.Some? <==> IsForeign(c, d)) && (p.Some? ==> p.value.code == "SUBJECT_FORBIDDEN")
  {
  }

  lemma HeaderCodes(c: Contract, e: Envelope.EventEnvelope, d: Delivery)
    ensures var p, t := HeaderProblem(c, e, d), TransportProblem(c, d);
      && (t.Some? ==> p == t)
      && (t.None? && p.Some? ==> p.value.code == "SCHEMA_MISMATCH")
  {
    TypeCodes(c, e);
  }

  lemma TypeCodes(c: Contract, e: Envelope.EventEnvelope)
    ensures TypeProblem(c, e).Some? ==> TypeProblem(c, e).value.code == "SCHEMA_MISMATCH"
    ensures KindProblem(e).Some? ==> KindProblem(e).value.code == "SCHEMA_MISMATCH"
  {
  }

  lemma SourceRowCodes(out: Outside, c: Contract, e: Envelope.EventEnvelope)
    ensures SourceRow(out, c, e).Err? ==> SourceRow(out, c, e).error.code == "SCHEMA_MISMATCH"
  {
  }

  lemma ComposeCodes(out: Outside, c: Contract, e: Envelope.EventEnvelope, pk: Uuid, metadata: map<string, Json>)
    ensures Compose(out, c, e, pk, metadata).Err? ==> Compose(out, c, e, pk, metadata).error.code == "SCHEMA_MISMATCH"
  {
  }

  lemma ComposedCodes(out: Outside, c: Contract, e: Envelope.EventEnvelope, pk: Result<Uuid, Problem>,
                      metadata: Result<map<string, Json>, Problem>)
    requires pk == SourceRow(out, c, e)
    requires metadata.Err? && metadata.error.Rejection? ==> metadata.error.code == "SCHEMA_MISMATCH"
    ensures var r := Composed(out, c, e, pk, metadata);
      r.Err? && r.error.Rejection? ==> r.error.code == "SCHEMA_MISMATCH"
  {
    SourceRowCodes(out, c, e);
    if pk.Ok? && metadata.Ok? {
      ComposeCodes(out, c, e, pk.value, metadata.value);
    }
  }

  lemma SanitizeCodes(out: Outside, v: Option<Json>)
    ensures var r := Sanitized(out, v); r.Err? && r.error.Rejection? ==> r.error.code == "SCHEMA_MISMATCH"
  {
    if v.Some? && v.value.Obj? {
      ProblemCodes(out, out.itemsInOrder(v.value.fields));
    }
  }

  lemma {:induction false} ProblemCodes(out: Outside, items: seq<(string, Json)>)
    ensures var p := FirstProblem(out, items); p.Some? && p.value.Rejection? ==> p.value.code == "SCHEMA_MISMATCH"
  {
    if items != [] {
      ProblemCodes(out, items[1..]);
    }
  }

  // ---------------------------------------------------------------- what a rejection says

  predicate IsTransportDetail(c: Contract, d: Delivery, detail: string) {
    || (d.subject != c.subject && detail == "delivered subject is not the A2 subject")
    || (d.stream != c.stream && detail == "delivered stream is not HUDHUD_AUDIT")
    || (d.consumerName != c.durableConsumer && detail == "durable consumer is not audit_bridge_entry_v1")
  }

  predicate IsEnvelopeDetail(c: Contract, e: Envelope.EventEnvelope, detail: string) {
    || (e.eventType != c.eventType && detail == "event_type is not the A2 observation type")
    || (e.eventVersion != c.eventVersion && detail == "event_version is not 1")
    || (e.producer != c.producer && detail == "producer is not legacy_bridge")
    || (e.schemaUri.Some? && e.schemaUri != Some(c.schemaUri) && detail == "schema_uri does not match A2 registry")
    || (e.messageKind != Envelope.Integration && detail == "message_kind is not integration")
    || (e.aggregateScope != Envelope.NonAggregate && detail == "aggregate_scope must be non_aggregate")
    || ((e.aggregateType.Some? || e.aggregateId.Some?) && detail == "aggregate identity must be absent")
    || (e.aggregateVersion.Some? && detail == "aggregate_version must not be invented")
  }

  ghost predicate IsPayloadDetail(p: map<string, Json>, detail: string) {
    || ((exists f :: f in FORBIDDEN_CDC_KEYS && f in p) && detail == "payload contains raw CDC fields")
    || (exists f :: f in REQUIRED_FIELDS && (f !in p || p[f] == Null || p[f] == Str(""))
          && detail == "missing required payload field " + f)
  }

  ghost predicate IsRowDetail(out: Outside, c: Contract, e: Envelope.EventEnvelope, detail: string) {
    var p := e.payload;
    || (!SaysText(out, p, "source_table", c.sourceTable) && detail == "source_table is not audit_logs")
    || ((forall id :: !SaysUuid(out, p, "source_pk", id)) && detail == "source_pk is not a UUID")
    || ((forall id :: !SaysUuid(out, p, "audit_entry_id", id)) && detail == "audit_entry_id is not a UUID")
    || ((exists a, b :: a != b && SaysUuid(out, p, "source_pk", a) && SaysUuid(out, p, "audit_entry_id", b))
        && detail == "audit_entry_id must equal source_pk")
    || ((forall pk :: !IsItsRow(out, c, e, pk)) && detail == "event_id does not match append-only A2 identity")
  }

  ghost predicate IsMetadataDetail(out: Outside, p: map<string, Json>, detail: string) {
    "metadata" in p && p["metadata"] != Null &&
    if !p["metadata"].Obj? then detail == "metadata must be an object"
    else
      var m := p["metadata"].fields;
      || (|m| > 32 && detail == "metadata exceeds allowlisted size")
      || (exists k :: k in m && out.forbiddenKey(k) && detail == "metadata contains a forbidden secret key")
      || (exists k :: k in m && SecretLike(out, m[k]) && detail == "metadata contains a secret-like value")
  }

  ghost predicate IsRestDetail(out: Outside, p: map<string, Json>, detail: string) {
    || (!SaysNothing(p, "actor_id") && (forall id :: !SaysUuid(out, p, "actor_id", id))
        && detail == "actor_id is not a UUID")
    || ((forall id :: !SaysUuid(out, p, "entity_id", id)) && detail == "entity_id is not a UUID")
    || ("occurred_at" in p && Timestamps.ParseUtc(out.codec.otherTime, out.codec.toText(p["occurred_at"])).None?
        && detail == "occurred_at is not RFC 3339 UTC")
  }

  /** The detail of a rejection is true of the delivery. */
  ghost predicate IsTrueDetail(out: Outside, c: Contract, e: Envelope.EventEnvelope, d: Delivery, detail: string) {
    || IsTransportDetail(c, d, detail) || IsEnvelopeDetail(c, e, detail) || IsPayloadDetail(e.payload, detail)
    || IsRowDetail(out, c, e, detail) || IsMetadataDetail(out, e.payload, detail)
    || IsRestDetail(out, e.payload, detail)
  }

  lemma TransportDetails(c: Contract, d: Delivery)
    requires TransportProblem(c, d).Some?
    ensures IsTransportDetail(c, d, TransportProblem(c, d).value.detail)
  {
  }

  lemma EnvelopeDetails(c: Contract, e: Envelope.EventEnvelope, d: Delivery)
    requires TransportProblem(c, d).None? && HeaderProblem(c, e, d).Some?
    ensures IsEnvelopeDetail(c, e, HeaderProblem(c, e, d).value.detail)
  {
    TypeDetails(c, e);
    KindDetails(c, e);
  }

  lemma TypeDetails(c: Contract, e: Envelope.EventEnvelope)
    ensures TypeProblem(c, e).Some? ==> IsEnvelopeDetail(c, e, TypeProblem(c, e).value.detail)
  {
  }

  lemma KindDetails(c: Contract, e: Envelope.EventEnvelope)
    ensures KindProblem(e).Some? ==> IsEnvelopeDetail(c, e, KindProblem(e).value.detail)
  {
  }

  lemma {:induction false} MissingIsOne(p: map<string, Json>, fields: seq<string>)
    requires FirstMissing(p, fields).Some?
    ensures FirstMissing(p, fields).value in fields && IsMissing(p, FirstMissing(p, fields).value)
  {
    if !IsMissing(p, fields[0]) {
      MissingIsOne(p, fields[1..]);
    }
  }

  lemma PayloadDetails(c: Contract, e: Envelope.EventEnvelope, d: Delivery)
    requires HeaderProblem(c, e, d).None? && EntryProblem(c, e, d).Some?
    ensures IsPayloadDetail(e.payload, EntryProblem(c, e, d).value.detail)
  {
    NoneInBoth(FORBIDDEN_CDC_KEYS, e.payload);
    if FirstMissing(e.payload, REQUIRED_FIELDS).Some? {
      MissingIsOne(e.payload, REQUIRED_FIELDS);
    }
  }

  lemma RowDetails(out: Outside, c: Contract, e: Envelope.EventEnvelope)
    requires SourceRow(out, c, e).Err? && HasFields(e.payload)
    ensures IsRowDetail(out, c, e, SourceRow(out, c, e).error.detail)
  {
    var p := e.payload;
    var pk, entry := UuidIn(out, p, "source_pk"), UuidIn(out, p, "audit_entry_id");
    if pk.Some? && entry.Some? {
      assert SaysUuid(out, p, "source_pk", pk.value) && SaysUuid(out, p, "audit_entry_id", entry.value);
    }
  }

  lemma {:induction false} ProblemDetails(out: Outside, items: seq<(string, Json)>)
    requires FirstProblem(out, items).Some? && FirstProblem(out, items).value.Rejection?
    ensures var detail := FirstProblem(out, items).value.detail;
      exists i :: 0 <= i < |items| && IsKeyDetail(out, items[i].0, items[i].1, detail)
  {
    if KeyProblem(out, items[0].0, items[0].1).Some? {
      ScanPasses(out, items[0].1, out.scanFrames);
      assert IsKeyDetail(out, items[0].0, items[0].1, FirstProblem(out, items).value.detail);
    } else {
      ProblemDetails(out, items[1..]);
      var i :| 0 <= i < |items| - 1
        && IsKeyDetail(out, items[1..][i].0, items[1..][i].1, FirstProblem(out, items).value.detail);
      assert items[i + 1] == items[1..][i];
    }
  }

  predicate IsKeyDetail(out: Outside, key: string, value: Json, detail: string) {
    || (out.forbiddenKey(key) && detail == "metadata contains a forbidden secret key")
    || (SecretLike(out, value) && detail == "metadata contains a secret-like value")
  }

  lemma MetadataDetails(out: Outside, e: Envelope.EventEnvelope)
    requires IterationIsFair(out)
    requires Sanitized(out, MetadataOf(e)).Err? && Sanitized(out, MetadataOf(e)).error.Rejection?
    ensures IsMetadataDetail(out, e.payload, Sanitized(out, MetadataOf(e)).error.detail)
  {
    var v := MetadataOf(e).value;
    if v.Obj? && |v.fields| <= 32 {
      var items := out.itemsInOrder(v.fields);
      ProblemDetails(out, items);
      var i :| 0 <= i < |items|
        && IsKeyDetail(out, items[i].0, items[i].1, Sanitized(out, MetadataOf(e)).error.detail);
      assert (items[i].0, items[i].1) in items;
    }
  }

  lemma RestDetails(out: Outside, c: Contract, e: Envelope.EventEnvelope, pk: Uuid, metadata: map<string, Json>)
    requires HasFields(e.payload) && Compose(out, c, e, pk, metadata).Err?
    ensures IsRestDetail(out, e.payload, Compose(out, c, e, pk, metadata).error.detail)
  {
    FalsyIsNothing(e.payload, "actor_id");
  }

  /** Whatever a rejection gives as its detail is true of the delivery. */
  lemma RejectionsAreTrue(out: Outside, c: Contract, e: Envelope.EventEnvelope, d: Delivery)
    requires IterationIsFair(out) && Validated(out, c, e, d).Err? && Validated(out, c, e, d).error.Rejection?
    ensures IsTrueDetail(out, c, e, d, Validated(out, c, e, d).error.detail)
  {
    if EntryProblem(c, e, d).Some? {
      EntryDetails(c, e, d);
    } else {
      RequiredAreThere(e.payload);
      LaterDetails(out, c, e, SourceRow(out, c, e), Sanitized(out, MetadataOf(e)));
    }
  }

  lemma EntryDetails(c: Contract, e: Envelope.EventEnvelope, d: Delivery)
    requires EntryProblem(c, e, d).Some?
    ensures var detail := EntryProblem(c, e, d).value.detail;
      IsTransportDetail(c, d, detail) || IsEnvelopeDetail(c, e, detail) || IsPayloadDetail(e.payload, detail)
  {
    if TransportProblem(c, d).Some? {
      TransportDetails(c, d);
    } else if HeaderProblem(c, e, d).Some? {
      EnvelopeDetails(c, e, d);
    } else {
      PayloadDetails(c, e, d);
    }
  }

  lemma LaterDetails(out: Outside, c: Contract, e: Envelope.EventEnvelope, pk: Result<Uuid, Problem>,
                     metadata: Result<map<string, Json>, Problem>)
    requires IterationIsFair(out) && HasFields(e.payload)
    requires pk == SourceRow(out, c, e) && metadata == Sanitized(out, MetadataOf(e))
    ensures var r := Composed(out, c, e, pk, metadata); r.Err? && r.error.Rejection? ==>
      || IsRowDetail(out, c, e, r.error.detail) || IsMetadataDetail(out, e.payload, r.error.detail)
      || IsRestDetail(out, e.payload, r.error.detail)
  {
    if pk.Err? {
      RowDetails(out, c, e);
    } else if metadata.Err? {
      if metadata.error.Rejection? {
        MetadataDetails(out, e);
      }
    } else if Compose(out, c, e, pk.value, metadata.value).Err? {
      RestDetails(out, c, e, pk.value, metadata.value);
    }
  }
}
