/** The port registry verifier: schema faults, duplicate ids, and active host bindings that collide. */
module Ports {
  import opened Wrappers
  import opened Strings

  const MAX_PORT := 65535

  datatype PortInterval = PortInterval(start: int, end: int) {
    predicate Overlaps(other: PortInterval) {
      start <= other.end && other.start <= end
    }

    predicate Holds(port: int) {
      start <= port <= end
    }

    predicate Valid() {
      1 <= start <= end <= MAX_PORT
    }
  }

  datatype Place = Root | VersionField | AllocationsField | AllocationAt(index: nat) | BindingAt(allocation: nat,
      binding: nat)

  /** The fields a schema message can name, and what it can say of one. */
  datatype Field =
    | Registry | Version | Allocations | Allocation | Id | Protocol | BindingKindField | Bindings | Binding
    | Environment
    | Host | HostType | HostName | HostPorts(number: Number) | Container | ContainerPorts(number: Number)

  datatype Number = Port | Start | End | WholeRange

  datatype Fault = Malformed(field: Field) | OutOfRange(of: Field) | Backwards(range: Field)

  datatype Violation =
    | Schema(fault: Fault, at: Place)
    | DuplicateId(id: string)
    | InternalPublish(owner: string, hostType: HostKind)
    | HostCollision(environment: string, protocol: string, leftId: string, left: PortInterval, rightId: string,
                    right: PortInterval)

  const HOST_PORTS: Number -> Field := n => HostPorts(n)
  const CONTAINER_PORTS: Number -> Field := n => ContainerPorts(n)

  type Log = seq<Violation>

  function Note(log: Log, v: Violation): Log {
    log + [v]
  }

  /** A loop of the verifier: one step after the other. */
  function Steps(log: Log, step: (Log, nat) -> Log, count: nat): Log {
    if count == 0 then log else step(Steps(log, step, count - 1), count - 1)
  }

  class VerificationResult {
    var violations: Log

    constructor ()
      ensures violations == []
    {
      violations := [];
    }

    method Add(v: Violation)
      modifies this
      ensures violations == Note(old(violations), v)
    {
      violations := violations + [v];
    }
  }

  // ---------------------------------------------------------------- a registry as it is read

  // A mapping of the registry file is what its keys hold: a value of the expected kind, or the ways it can fail to be
  // one.

  datatype PortValue = Integer(number: int) | NotAnInteger

  datatype HostKind = Fixed | Loopback | Range | Unpublished | EnvVar | UnresolvedHost | UnknownHostKind

  /** `DefaultContainer`: the type is absent and read as fixed. */
  datatype ContainerKind = DefaultContainer | FixedContainer | RangeContainer | OtherContainer | UnknownContainer

  datatype HostMapping =
    | NoHost
    | EmptyHost
    | HostMapping(kind: HostKind, port: PortValue, start: PortValue, end: PortValue, name: Option<string>)

  datatype ContainerMapping =
    | NoContainer
    | BadContainer
    | EmptyContainer
    | ContainerMapping(containerKind: ContainerKind, containerPort: Option<PortValue>, first: PortValue,
                       last: PortValue)

  datatype BindingMapping =
    | BadBinding
    | EmptyBinding
    | BindingMapping(environment: Option<string>, active: bool, host: HostMapping, container: ContainerMapping)

  /** `shown` is the value's str(), which is how an id or a protocol that is not text still names something. */
  datatype IdValue = NoId | TextId(text: string) | OtherId(shown: string)

  datatype ProtocolValue = NoProtocol | Tcp | Udp | UnknownProtocol(shown: string)

  datatype BindingKind = InternalContainer | OtherKnownKind | UnknownKind

  datatype AllocationMapping =
    | BadAllocation
    | EmptyAllocation
    | AllocationMapping(id: IdValue, protocol: ProtocolValue, bindingKind: BindingKind,
                        bindings: Option<seq<BindingMapping>>)

  datatype RegistryMapping = BadRegistry | RegistryMapping(versionIsOne: bool,
                                                           allocations: Option<seq<AllocationMapping>>)

  predicate NonBlank(s: Option<string>) {
    s.Some? && Strip(s.value) != ""
  }

  predicate IsSingle(kind: HostKind) {
    kind.Fixed? || kind.Loopback?
  }

  predicate IsUnnumbered(kind: HostKind) {
    kind.Unpublished? || kind.EnvVar? || kind.UnresolvedHost?
  }

  /**
   The names the source gives an allocation without an id: `<index:i>` when collecting, `allocations[i]` when
   reporting.
   */
  datatype Naming = Naming(placeholder: nat -> string, slot: nat -> string)

  // ---------------------------------------------------------------- ports and intervals

  function PortOf(value: PortValue): (port: Option<int>)
    ensures port.Some? ==> 1 <= port.value <= MAX_PORT
  {
    if value.Integer? && 1 <= value.number <= MAX_PORT then Some(value.number) else None
  }

  function LogPort(log: Log, value: PortValue, field: Field, at: Place): Log
  {
    if !value.Integer? then Note(log, Schema(Malformed(field), at))
    else if value.number < 1 || value.number > MAX_PORT then Note(log, Schema(OutOfRange(field), at))
    else log
  }

  method ParsePort(value: PortValue, field: Field, at: Place, result: VerificationResult) returns (port: Option<int>)
    modifies result
    ensures port == PortOf(value) && result.violations == LogPort(old(result.violations), value, field, at)
  {
    if !value.Integer? {
      result.Add(Schema(Malformed(field), at));
      return None;
    }
    if value.number < 1 || value.number > 65535 {
      result.Add(Schema(OutOfRange(field), at));
      return None;
    }
    return Some(value.number);
  }

  function RangeOf(start: PortValue, end: PortValue): (r: Option<PortInterval>)
    ensures r.Some? ==> r.value.Valid()
  {
    var first, last := PortOf(start), PortOf(end);
    if first.Some? && last.Some? && first.value <= last.value then Some(PortInterval(first.value, last.value)) else None
  }

  function LogRange(log: Log, start: PortValue, end: PortValue, numbered: Number -> Field, at: Place): Log
  {
    var first, last := PortOf(start), PortOf(end);
    var parsed := LogPort(LogPort(log, start, numbered(Start), at), end, numbered(End), at);
    if first.Some? && last.Some? && first.value > last.value then
      Note(parsed, Schema(Backwards(numbered(WholeRange)), at)) else parsed
  }

  method ParseRange(start: PortValue, end: PortValue, numbered: Number -> Field, at: Place, result: VerificationResult)
    returns (interval: Option<PortInterval>)
    modifies result
    ensures interval == RangeOf(start, end)
    ensures result.violations == LogRange(old(result.violations), start, end, numbered, at)
  {
    var first := ParsePort(start, numbered(Start), at, result);
    var last := ParsePort(end, numbered(End), at, result);
    if first.None? || last.None? {
      return None;
    }
    if first.value > last.value {
      result.Add(Schema(Backwards(numbered(WholeRange)), at));
      return None;
    }
    return Some(PortInterval(first.value, last.value));
  }

  function SinglePort(value: PortValue): (r: Option<PortInterval>)
    ensures r.Some? ==> r.value.Valid()
  {
    var port := PortOf(value);
    if port.Some? then Some(PortInterval(port.value, port.value)) else None
  }

  function HostIntervalOf(host: HostMapping): (r: Option<PortInterval>)
    ensures r.Some? ==> r.value.Valid()
  {
    if !host.HostMapping? then None
    else if IsSingle(host.kind) then SinglePort(host.port)
    else if host.kind.Range? then RangeOf(host.start, host.end)
    else None
  }

  /** A host kind the verifier knows, with the port numbers that kind needs. */
  predicate NumbersAreSound(host: HostMapping) {
    host.HostMapping? && (IsUnnumbered(host.kind) || HostIntervalOf(host).Some?)
  }

  function LogHostInterval(log: Log, host: HostMapping, at: Place): Log
  {
    if !host.HostMapping? || host.kind.UnknownHostKind? then Note(log, Schema(Malformed(HostType), at))
    else if IsSingle(host.kind) then LogPort(log, host.port, HostPorts(Port), at)
    else if host.kind.Range? then LogRange(log, host.start, host.end, HOST_PORTS, at)
    else log
  }

  /** An empty host mapping has no type, which this lets through no more than an unknown one. */
  method HostInterval(host: HostMapping, at: Place, result: VerificationResult) returns (interval: Option<PortInterval>)
    modifies result
    ensures interval == HostIntervalOf(host) && result.violations == LogHostInterval(old(result.violations), host, at)
  {
    if host.HostMapping? && IsUnnumbered(host.kind) {
      return None;
    }
    if !host.HostMapping? || host.kind.UnknownHostKind? {
      result.Add(Schema(Malformed(HostType), at));
      return None;
    }
    if IsSingle(host.kind) {
      var port := ParsePort(host.port, HostPorts(Port), at, result);
      return if port.None? then None else Some(PortInterval(port.value, port.value));
    }
    interval := ParseRange(host.start, host.end, HOST_PORTS, at, result);
  }

  // ---------------------------------------------------------------- one allocation

  /** An empty host mapping is let through; an env_var host needs a name. */
  predicate HostIsSound(host: HostMapping) {
    match host
    case NoHost => false
    case EmptyHost => true
    case HostMapping(kind, _, _, _, name) => NumbersAreSound(host) && (kind.EnvVar? ==> NonBlank(name))
  }

  function LogHost(log: Log, host: HostMapping, at: Place): Log
  {
    match host
    case NoHost => Note(log, Schema(Malformed(Host), at))
    case EmptyHost => log
    case HostMapping(kind, _, _, _, name) =>
      if kind.EnvVar? then if NonBlank(name) then log else Note(log, Schema(Malformed(HostName), at))
      else LogHostInterval(log, host, at)
  }

  method ValidateHost(host: HostMapping, at: Place, result: VerificationResult)
    modifies result
    ensures result.violations == LogHost(old(result.violations), host, at)
  {
    if host.NoHost? {
      result.Add(Schema(Malformed(Host), at));
      return;
    }
    if host.EmptyHost? {
      return;
    }
    if host.kind.UnknownHostKind? {
      result.Add(Schema(Malformed(HostType), at));
    } else if host.kind.EnvVar? {
      if !NonBlank(host.name) {
        result.Add(Schema(Malformed(HostName), at));
      }
    } else if IsSingle(host.kind) {
      var _ := ParsePort(host.port, HostPorts(Port), at, result);
    } else if host.kind.Range? {
      var _ := ParseRange(host.start, host.end, HOST_PORTS, at, result);
    }
  }

  /** Only a container of an unknown type that names a port, and a range, are looked into. */
  predicate ContainerIsSound(container: ContainerMapping) {
    match container
    case BadContainer => false
    case ContainerMapping(kind, port, first, last) =>
      && (kind.UnknownContainer? && port.Some? ==> PortOf(port.value).Some?)
      && (kind.RangeContainer? ==> RangeOf(first, last).Some?)
    case _ => true
  }

  function LogContainer(log: Log, container: ContainerMapping, at: Place): Log
  {
    match container
    case BadContainer => Note(log, Schema(Malformed(Container), at))
    case ContainerMapping(kind, port, first, last) =>
      if kind.UnknownContainer? && port.Some? then LogPort(log, port.value, ContainerPorts(Port), at)
      else if kind.RangeContainer? then LogRange(log, first, last, CONTAINER_PORTS, at)
      else log
    case _ => log
  }

  method ValidateContainer(container: ContainerMapping, at: Place, result: VerificationResult)
    modifies result
    ensures result.violations == LogContainer(old(result.violations), container, at)
  {
    if container.BadContainer? {
      result.Add(Schema(Malformed(Container), at));
    } else if container.ContainerMapping? {
      if container.containerKind.UnknownContainer? && container.containerPort.Some? {
        var _ := ParsePort(container.containerPort.value, ContainerPorts(Port), at, result);
      } else if container.containerKind.RangeContainer? {
        var _ := ParseRange(container.first, container.last, CONTAINER_PORTS, at, result);
      }
    }
  }

  predicate BindingIsSound(binding: BindingMapping) {
    match binding
    case BadBinding => false
    case EmptyBinding => true
    case BindingMapping(environment, _, host, container) =>
      NonBlank(environment) && HostIsSound(host) && ContainerIsSound(container)
  }

  function LogBinding(log: Log, binding: BindingMapping, at: Place): Log
  {
    match binding
    case BadBinding => Note(log, Schema(Malformed(Binding), at))
    case EmptyBinding => log
    case BindingMapping(environment, _, host, container) =>
      LogContainer(LogHost(if NonBlank(environment) then log
            else Note(log, Schema(Malformed(Environment), at)), host, at), container, at)
  }

  method ValidateBinding(binding: BindingMapping, at: Place, result: VerificationResult)
    modifies result
    ensures result.violations == LogBinding(old(result.violations), binding, at)
  {
    if binding.BadBinding? {
      result.Add(Schema(Malformed(Binding), at));
      return;
    }
    if binding.EmptyBinding? {
      return;
    }
    if !NonBlank(binding.environment) {
      result.Add(Schema(Malformed(Environment), at));
    }
    ValidateHost(binding.host, at, result);
    ValidateContainer(binding.container, at, result);
  }

  function BindingStep(bindings: seq<BindingMapping>, index: nat): (Log, nat) -> Log {
    (log, j: nat) => if j < |bindings| then LogBinding(log, bindings[j], BindingAt(index, j)) else log
  }

  function LogBindings(log: Log, bindings: seq<BindingMapping>, index: nat): Log {
    Steps(log, BindingStep(bindings, index), |bindings|)
  }

  predicate HeaderIsSound(id: IdValue, protocol: ProtocolValue, kind: BindingKind) {
    id.TextId? && NonBlank(Some(id.text)) && (protocol.Tcp? || protocol.Udp?) && !kind.UnknownKind?
  }

  function LogHeader(log: Log, id: IdValue, protocol: ProtocolValue, kind: BindingKind, at: Place): Log
  {
    var a := if id.TextId? && NonBlank(Some(id.text)) then log else Note(log, Schema(Malformed(Id), at));
    var b := if protocol.Tcp? || protocol.Udp? then a else Note(a, Schema(Malformed(Protocol), at));
    if kind.UnknownKind? then Note(b, Schema(Malformed(BindingKindField), at)) else b
  }

  /** Declaratively: what an allocation must be for the schema check to have nothing to say; an empty mapping passes. */
  predicate AllocationIsSound(a: AllocationMapping) {
    match a
    case BadAllocation => false
    case EmptyAllocation => true
    case AllocationMapping(id, protocol, kind, bindings) =>
      && HeaderIsSound(id, protocol, kind)
      && bindings.Some?
      && forall j :: 0 <= j < |bindings.value| ==> BindingIsSound(bindings.value[j])
  }

  function LogAllocation(log: Log, a: AllocationMapping, index: nat): Log
  {
    match a
    case BadAllocation => Note(log, Schema(Malformed(Allocation), AllocationAt(index)))
    case EmptyAllocation => log
    case AllocationMapping(id, protocol, kind, bindings) =>
      var headed := LogHeader(log, id, protocol, kind, AllocationAt(index));
      if bindings.Some? then LogBindings(headed, bindings.value, index)
      else Note(headed, Schema(Malformed(Bindings), AllocationAt(index)))
  }

  method ValidateAllocation(allocation: AllocationMapping, index: nat, result: VerificationResult)
    modifies result
    ensures result.violations == LogAllocation(old(result.violations), allocation, index)
  {
    var at := AllocationAt(index);
    if allocation.BadAllocation? {
      result.Add(Schema(Malformed(Allocation), at));
      return;
    }
    if allocation.EmptyAllocation? {
      return;
    }
    if !(allocation.id.TextId? && NonBlank(Some(allocation.id.text))) {
      result.Add(Schema(Malformed(Id), at));
    }
    if !(allocation.protocol.Tcp? || allocation.protocol.Udp?) {
      result.Add(Schema(Malformed(Protocol), at));
    }
    if allocation.bindingKind.UnknownKind? {
      result.Add(Schema(Malformed(BindingKindField), at));
    }
    if allocation.bindings.None? {
      result.Add(Schema(Malformed(Bindings), at));
      return;
    }
    ValidateBindings(allocation.bindings.value, index, result);
  }

  method ValidateBindings(bindings: seq<BindingMapping>, index: nat, result: VerificationResult)
    modifies result
    ensures result.violations == LogBindings(old(result.violations), bindings, index)
  {
    ghost var before := result.violations;
    for j := 0 to |bindings|
      invariant result.violations == Steps(before, BindingStep(bindings, index), j)
    {
      ValidateBinding(bindings[j], BindingAt(index, j), result);
    }
  }

  // ---------------------------------------------------------------- active host bindings

  /** A binding that holds host ports: where, for whom, and which. */
  datatype Active = Active(environment: string, protocol: string, id: string, interval: PortInterval)

  /** A binding the collector looks at: active, in a named environment, with a mapping for a host. */
  predicate IsLive(binding: BindingMapping) {
    binding.BindingMapping? && binding.active && binding.environment.Some? && !binding.host.NoHost?
  }

  predicate LiveIsSound(binding: BindingMapping) {
    IsLive(binding) ==> NumbersAreSound(binding.host)
  }

  function LogLive(log: Log, binding: BindingMapping, at: Place): Log
  {
    if IsLive(binding) then LogHostInterval(log, binding.host, at) else log
  }

  function LiveActive(binding: BindingMapping, protocol: string, id: string): seq<Active>
  {
    if IsLive(binding) && HostIntervalOf(binding.host).Some?
    then [Active(binding.environment.value, protocol, id, HostIntervalOf(binding.host).value)] else []
  }

  /** The parts a list is made of, one after the other. */
  function Flat<T>(part: nat -> seq<T>, count: nat): seq<T> {
    if count == 0 then [] else Flat(part, count - 1) + part(count - 1)
  }

  function BindingPart(bindings: seq<BindingMapping>, protocol: string, id: string): nat -> seq<Active> {
    (j: nat) => if j < |bindings| then LiveActive(bindings[j], protocol, id) else []
  }

  function LiveStep(bindings: seq<BindingMapping>, index: nat): (Log, nat) -> Log {
    (log, j: nat) => if j < |bindings| then LogLive(log, bindings[j], BindingAt(index, j)) else log
  }

  function LogLives(log: Log, bindings: seq<BindingMapping>, index: nat): Log {
    Steps(log, LiveStep(bindings, index), |bindings|)
  }

  function BindingsOf(allocation: AllocationMapping): seq<BindingMapping> {
    if allocation.AllocationMapping? && allocation.bindings.Some? then allocation.bindings.value else []
  }

  function IdOf(id: IdValue, otherwise: string): string {
    match id
    case NoId => otherwise
    case TextId(text) => text
    case OtherId(shown) => shown
  }

  function ProtocolOf(protocol: ProtocolValue): string {
    match protocol
    case Udp => "udp"
    case UnknownProtocol(shown) => shown
    case _ => "tcp"
  }

  function AllocationActives(a: AllocationMapping, index: nat, naming: Naming): seq<Active> {
    if !a.AllocationMapping? then []
    else Flat(BindingPart(BindingsOf(a), ProtocolOf(a.protocol), IdOf(a.id, naming.placeholder(index))),
              |BindingsOf(a)|)
  }

  function AllocationPart(allocations: seq<AllocationMapping>, naming: Naming): nat -> seq<Active> {
    (i: nat) => if i < |allocations| then AllocationActives(allocations[i], i, naming) else []
  }

  /** The active host bindings of the whole registry, in registry order. */
  function ActivesOf(allocations: seq<AllocationMapping>, naming: Naming): seq<Active> {
    Flat(AllocationPart(allocations, naming), |allocations|)
  }

  /** An allocation the duplicate check looks at: not empty, with a text id or none. */
  predicate HasTextId(a: AllocationMapping) {
    a.AllocationMapping? && !a.id.OtherId?
  }

  function OwnId(a: AllocationMapping, index: nat, naming: Naming): set<string> {
    if HasTextId(a) then {IdOf(a.id, naming.placeholder(index))} else {}
  }

  /** The text ids among the first allocations. */
  function IdsTo(allocations: seq<AllocationMapping>, count: nat, naming: Naming): set<string>
    requires count <= |allocations|
  {
    if count == 0 then {} else IdsTo(allocations, count - 1, naming) + OwnId(allocations[count - 1], count - 1, naming)
  }

  predicate IdIsNew(a: AllocationMapping, index: nat, seen: set<string>, naming: Naming) {
    HasTextId(a) ==> IdOf(a.id, naming.placeholder(index)) !in seen
  }

  function LogId(log: Log, a: AllocationMapping, index: nat, seen: set<string>, naming: Naming): Log
  {
    if IdIsNew(a, index, seen, naming) then log else Note(log, DuplicateId(IdOf(a.id, naming.placeholder(index))))
  }

  function LogCollected(log: Log, a: AllocationMapping, index: nat, seen: set<string>, naming: Naming): Log
  {
    LogLives(LogId(LogAllocation(log, a, index), a, index, seen, naming), BindingsOf(a), index)
  }

  datatype Entry = Entry(id: string, interval: PortInterval)

  type Key = (string, string)

  type Groups = map<Key, seq<Entry>>

  function KeyOf(a: Active): Key { (a.environment, a.protocol) }

  function EntryOf(a: Active): Entry { Entry(a.id, a.interval) }

  function Insert(grouped: Groups, a: Active): Groups {
    grouped[KeyOf(a) := (if KeyOf(a) in grouped then grouped[KeyOf(a)] else []) + [EntryOf(a)]]
  }

  function InsertAll(grouped: Groups, actives: seq<Active>): Groups {
    if actives == [] then grouped else Insert(InsertAll(grouped, actives[..|actives| - 1]), actives[|actives| - 1])
  }

  function GroupsOf(actives: seq<Active>): Groups {
    InsertAll(map[], actives)
  }

  lemma {:induction false} InsertAllOfConcat(grouped: Groups, a: seq<Active>, b: seq<Active>)
    ensures InsertAll(grouped, a + b) == InsertAll(InsertAll(grouped, a), b)
  {
    if b == [] {
      assert a + b == a;
    } else {
      InsertAllOfConcat(grouped, a, b[..|b| - 1]);
      assert (a + b)[..|a + b| - 1] == a + b[..|b| - 1];
    }
  }

  function InsertParts(grouped: Groups, part: nat -> seq<Active>, count: nat): Groups {
    if count == 0 then grouped else InsertAll(InsertParts(grouped, part, count - 1), part(count - 1))
  }

  /** Grouping part by part is grouping the flat list. */
  lemma {:induction false} InsertPartsIsFlat(grouped: Groups, part: nat -> seq<Active>, count: nat)
    ensures InsertParts(grouped, part, count) == InsertAll(grouped, Flat(part, count))
  {
    if count > 0 {
      InsertPartsIsFlat(grouped, part, count - 1);
      InsertAllOfConcat(grouped, Flat(part, count - 1), part(count - 1));
    }
  }

  /** One binding of the collector's inner loop. */
  method CollectBinding(binding: BindingMapping, protocol: string, id: string, at: Place, grouped: Groups,
                        result: VerificationResult)
    returns (r: Groups)
    modifies result
    ensures r == InsertAll(grouped, LiveActive(binding, protocol, id))
    ensures result.violations == LogLive(old(result.violations), binding, at)
  {
    r := grouped;
    if !binding.BindingMapping? || !binding.active || binding.environment.None? || binding.host.NoHost? {
      return;
    }
    var interval := HostInterval(binding.host, at, result);
    if interval.None? {
      return;
    }
    var key := (binding.environment.value, protocol);
    r := r[key := (if key in r then r[key] else []) + [Entry(id, interval.value)]];
  }

  method CollectBindings(bindings: seq<BindingMapping>, protocol: string, id: string, index: nat, grouped: Groups,
                         result: VerificationResult)
    returns (r: Groups)
    modifies result
    ensures r == InsertAll(grouped, Flat(BindingPart(bindings, protocol, id), |bindings|))
    ensures result.violations == LogLives(old(result.violations), bindings, index)
  {
    r := grouped;
    ghost var before := result.violations;
    for j := 0 to |bindings|
      invariant r == InsertParts(grouped, BindingPart(bindings, protocol, id), j)
      invariant result.violations == Steps(before, LiveStep(bindings, index), j)
    {
      r := CollectBinding(bindings[j], protocol, id, BindingAt(index, j), r, result);
    }
    InsertPartsIsFlat(grouped, BindingPart(bindings, protocol, id), |bindings|);
  }

  /** What the collector does with one allocation: validate it, note its id, then group its live bindings. */
  method CollectOne(allocation: AllocationMapping, index: nat, naming: Naming, grouped: Groups, seen: set<string>,
                    result: VerificationResult)
    returns (r: Groups, ids: set<string>)
    modifies result
    ensures r == InsertAll(grouped, AllocationActives(allocation, index, naming))
    ensures ids == seen + OwnId(allocation, index, naming)
    ensures result.violations == LogCollected(old(result.violations), allocation, index, seen, naming)
  {
    r, ids := grouped, seen;
    ValidateAllocation(allocation, index, result);
    if !allocation.AllocationMapping? {
      return;
    }
    var id := IdOf(allocation.id, naming.placeholder(index));
    if !allocation.id.OtherId? {
      if id in seen {
        result.Add(DuplicateId(id));
      }
      ids := seen + {id};
    }
    if allocation.bindings.None? {
      return;
    }
    r := CollectBindings(allocation.bindings.value, ProtocolOf(allocation.protocol), id, index, grouped, result);
  }

  function CollectorStep(allocations: seq<AllocationMapping>, naming: Naming): (Log, nat) -> Log {
    (log, i: nat) => if i < |allocations| then
      LogCollected(log, allocations[i], i, IdsTo(allocations, i, naming), naming) else log
  }

  function LogCollector(log: Log, allocations: seq<AllocationMapping>, naming: Naming): Log {
    Steps(log, CollectorStep(allocations, naming), |allocations|)
  }

  function GroupsTo(allocations: seq<AllocationMapping>, count: nat, naming: Naming): Groups {
    InsertParts(map[], AllocationPart(allocations, naming), count)
  }

  lemma NextGroups(allocations: seq<AllocationMapping>, i: nat, naming: Naming)
    requires i < |allocations|
    ensures GroupsTo(allocations, i + 1, naming)
         == InsertAll(GroupsTo(allocations, i, naming), AllocationActives(allocations[i], i, naming))
  {
  }

  /** Grouping allocation by allocation is grouping the flat list of active bindings. */
  lemma GroupsAreOfActives(allocations: seq<AllocationMapping>, naming: Naming)
    ensures GroupsTo(allocations, |allocations|, naming) == GroupsOf(ActivesOf(allocations, naming))
  {
    InsertPartsIsFlat(map[], AllocationPart(allocations, naming), |allocations|);
  }

  /** Group the active host bindings by environment and protocol. */
  method CollectActiveHostIntervals(allocations: seq<AllocationMapping>, naming: Naming, result: VerificationResult)
    returns (grouped: Groups)
    modifies result
    ensures grouped == GroupsTo(allocations, |allocations|, naming)
    ensures result.violations == LogCollector(old(result.violations), allocations, naming)
  {
    grouped := map[];
    var seen: set<string> := {};
    ghost var before := result.violations;
    for i := 0 to |allocations|
      invariant grouped == GroupsTo(allocations, i, naming)
      invariant seen == IdsTo(allocations, i, naming)
      invariant result.violations == Steps(before, CollectorStep(allocations, naming), i)
    {
      NextGroups(allocations, i, naming);
      grouped, seen := CollectOne(allocations[i], i, naming, grouped, seen, result);
    }
  }

  // ---------------------------------------------------------------- collisions

  function LogPair(log: Log, key: Key, left: Entry, right: Entry): Log {
    if left.interval.Overlaps(right.interval)
    then Note(log, HostCollision(key.0, key.1, left.id, left.interval, right.id, right.interval)) else log
  }

  /** Row `left` of the pair loop, for the right indices below `right`. */
  function LogRow(log: Log, key: Key, s: seq<Entry>, left: nat, right: nat): Log
    requires left < |s| && right <= |s|
  {
    if right <= left + 1 then log else LogPair(LogRow(log, key, s, left, right - 1), key, s[left], s[right - 1])
  }

  function LogGroup(log: Log, key: Key, s: seq<Entry>, rows: nat): Log
    requires rows <= |s|
  {
    if rows == 0 then log else LogRow(LogGroup(log, key, s, rows - 1), key, s, rows - 1, |s|)
  }

  function LogGroups(log: Log, grouped: Groups, order: seq<Key>, count: nat): Log
    requires count <= |order|
    requires forall k :: k in order ==> k in grouped
  {
    if count == 0 then log
    else LogGroup(LogGroups(log, grouped, order, count - 1), order[count - 1], grouped[order[count - 1]],
                  |grouped[order[count - 1]]|)
  }

  method CheckGroup(key: Key, entries: seq<Entry>, result: VerificationResult)
    modifies result
    ensures result.violations == LogGroup(old(result.violations), key, entries, |entries|)
  {
    ghost var before := result.violations;
    for left := 0 to |entries|
      invariant result.violations == LogGroup(before, key, entries, left)
    {
      ghost var row := result.violations;
      for right := left + 1 to |entries|
        invariant result.violations == LogRow(row, key, entries, left, right)
      {
        if entries[left].interval.Overlaps(entries[right].interval) {
          result.Add(HostCollision(key.0, key.1, entries[left].id, entries[left].interval, entries[right].id,
                                   entries[right].interval));
        }
      }
    }
  }

  /** A sort only has to list every key once; what it is sorted by does not matter to the verdict. */
  ghost predicate Enumerates(sort: set<Key> -> seq<Key>) {
    forall keys ::
      && (forall k :: k in sort(keys) <==> k in keys)
      && (forall i, j :: 0 <= i < j < |sort(keys)| ==> sort(keys)[i] != sort(keys)[j])
  }

  function LogCollisions(log: Log, grouped: Groups, sort: set<Key> -> seq<Key>): Log
    requires Enumerates(sort)
  {
    LogGroups(log, grouped, sort(grouped.Keys), |sort(grouped.Keys)|)
  }

  method CheckHostCollisions(allocations: seq<AllocationMapping>, naming: Naming, sort: set<Key> -> seq<Key>,
                             result: VerificationResult)
    requires Enumerates(sort)
    modifies result
    ensures result.violations
         == LogCollisions(LogCollector(old(result.violations), allocations, naming),
                          GroupsTo(allocations, |allocations|, naming), sort)
  {
    var grouped := CollectActiveHostIntervals(allocations, naming, result);
    CheckGroups(grouped, sort(grouped.Keys), result);
  }

  method CheckGroups(grouped: Groups, order: seq<Key>, result: VerificationResult)
    requires forall k :: k in order ==> k in grouped
    modifies result
    ensures result.violations == LogGroups(old(result.violations), grouped, order, |order|)
  {
    ghost var before := result.violations;
    for i := 0 to |order|
      invariant result.violations == LogGroups(before, grouped, order, i)
    {
      CheckGroup(order[i], grouped[order[i]], result);
    }
  }

  // ---------------------------------------------------------------- internal containers

  predicate Publishes(binding: BindingMapping) {
    && binding.BindingMapping? && binding.host.HostMapping?
    && (IsSingle(binding.host.kind) || binding.host.kind.Range?)
    && binding.active
  }

  function PublishStep(bindings: seq<BindingMapping>, owner: string): (Log, nat) -> Log {
    (log, j: nat) =>
      if j < |bindings| && Publishes(bindings[j]) then Note(log, InternalPublish(owner, bindings[j].host.kind)) else log
  }

  predicate IsInternal(a: AllocationMapping) {
    a.AllocationMapping? && a.bindingKind.InternalContainer?
  }

  /** An internal container keeps to its network: it has no active binding of host ports. */
  predicate StaysInternal(a: AllocationMapping) {
    IsInternal(a) ==> forall j :: 0 <= j < |BindingsOf(a)| ==> !Publishes(BindingsOf(a)[j])
  }

  function LogInternal(log: Log, a: AllocationMapping, index: nat, naming: Naming): Log
  {
    if IsInternal(a) then Steps(log, PublishStep(BindingsOf(a), IdOf(a.id, naming.slot(index))), |BindingsOf(a)|)
      else log
  }

  function InternalStep(allocations: seq<AllocationMapping>, naming: Naming): (Log, nat) -> Log {
    (log, i: nat) => if i < |allocations| then LogInternal(log, allocations[i], i, naming) else log
  }

  function LogInternals(log: Log, allocations: seq<AllocationMapping>, naming: Naming): Log {
    Steps(log, InternalStep(allocations, naming), |allocations|)
  }

  method CheckInternal(a: AllocationMapping, index: nat, naming: Naming, result: VerificationResult)
    modifies result
    ensures result.violations == LogInternal(old(result.violations), a, index, naming)
  {
    if !a.AllocationMapping? || !a.bindingKind.InternalContainer? {
      return;
    }
    var owner, bindings := IdOf(a.id, naming.slot(index)), BindingsOf(a);
    ghost var before := result.violations;
    for j := 0 to |bindings|
      invariant result.violations == Steps(before, PublishStep(bindings, owner), j)
    {
      var binding := bindings[j];
      if binding.BindingMapping? && binding.host.HostMapping? {
        if (IsSingle(binding.host.kind) || binding.host.kind.Range?) && binding.active {
          result.Add(InternalPublish(owner, binding.host.kind));
        }
      }
    }
  }

  method CheckInternalContainerReuse(allocations: seq<AllocationMapping>, naming: Naming, result: VerificationResult)
    modifies result
    ensures result.violations == LogInternals(old(result.violations), allocations, naming)
  {
    ghost var before := result.violations;
    for i := 0 to |allocations|
      invariant result.violations == Steps(before, InternalStep(allocations, naming), i)
    {
      CheckInternal(allocations[i], i, naming, result);
    }
  }

  // ---------------------------------------------------------------- the whole registry

  function AllocationStep(allocations: seq<AllocationMapping>): (Log, nat) -> Log {
    (log, i: nat) => if i < |allocations| then LogAllocation(log, allocations[i], i) else log
  }

  function LogAllocations(log: Log, allocations: seq<AllocationMapping>): Log {
    Steps(log, AllocationStep(allocations), |allocations|)
  }

  method ValidateAll(allocations: seq<AllocationMapping>, result: VerificationResult)
    modifies result
    ensures result.violations == LogAllocations(old(result.violations), allocations)
  {
    ghost var before := result.violations;
    for i := 0 to |allocations|
      invariant result.violations == Steps(before, AllocationStep(allocations), i)
    {
      ValidateAllocation(allocations[i], i, result);
    }
  }

  /** Everything a list of allocations is checked for before the collisions; each allocation is validated twice. */
  function LogBeforeCollisions(log: Log, allocations: seq<AllocationMapping>, naming: Naming): Log {
    LogCollector(LogInternals(LogAllocations(log, allocations), allocations, naming), allocations, naming)
  }

  function Report(registry: RegistryMapping, naming: Naming, sort: set<Key> -> seq<Key>): Log
    requires Enumerates(sort)
  {
    match registry
    case BadRegistry => Note([], Schema(Malformed(Registry), Root))
    case RegistryMapping(versionIsOne, allocations) =>
      var log := if versionIsOne then [] else Note([], Schema(Malformed(Version), VersionField));
      if allocations.None? || allocations.value == [] then Note(log, Schema(Malformed(Allocations), AllocationsField))
      else
        LogCollisions(LogBeforeCollisions(log, allocations.value, naming),
                      GroupsTo(allocations.value, |allocations.value|, naming), sort)
  }

  method VerifyRegistry(registry: RegistryMapping, naming: Naming, sort: set<Key> -> seq<Key>)
    returns (result: VerificationResult)
    requires Enumerates(sort)
    ensures result.violations == Report(registry, naming, sort)
  {
    result := new VerificationResult();
    if registry.BadRegistry? {
      result.Add(Schema(Malformed(Registry), Root));
      return;
    }
    if !registry.versionIsOne {
      result.Add(Schema(Malformed(Version), VersionField));
    }
    if registry.allocations.None? || registry.allocations.value == [] {
      result.Add(Schema(Malformed(Allocations), AllocationsField));
      return;
    }
    var allocations := registry.allocations.value;
    ValidateAll(allocations, result);
    CheckInternalContainerReuse(allocations, naming, result);
    CheckHostCollisions(allocations, naming, sort, result);
  }
}
