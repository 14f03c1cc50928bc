/** Every report of the port verifier, read off the registry file: what is wrong, and where. */
module PortReports {
  import opened Wrappers
  import opened Strings
  import opened Ports
  import opened PortCollisions
  import opened PortFacts

  // ---------------------------------------------------------------- what is wrong with a value

  /** What there is to say of a value that should be a port. */
  predicate FaultOfPort(value: PortValue, field: Field, fault: Fault) {
    match value
    case NotAnInteger => fault == Malformed(field)
    case Integer(n) => (n < 1 || n > 65535) && fault == OutOfRange(field)
  }

  predicate FaultOfRange(start: PortValue, end: PortValue, first: Field, last: Field, whole: Field, fault: Fault) {
    || FaultOfPort(start, first, fault) || FaultOfPort(end, last, fault)
    || (IsPort(start) && IsPort(end) && start.number > end.number && fault == Backwards(whole))
  }

  /** Of a host whose ports are wanted: no type that is known, or its numbers. */
  predicate FaultOfHostPorts(host: HostMapping, fault: Fault) {
    if !host.HostMapping? then fault == Malformed(HostType)
    else
      match host.kind
      case UnknownHostKind => fault == Malformed(HostType)
      case Fixed => FaultOfPort(host.port, HostPorts(Port), fault)
      case Loopback => FaultOfPort(host.port, HostPorts(Port), fault)
      case Range =>
        FaultOfRange(host.start, host.end, HostPorts(Start), HostPorts(End), HostPorts(WholeRange), fault)
      case _ => false
  }

  /** Of a host in the schema check: missing, without the name of its variable, or its ports; empty passes. */
  predicate FaultOfHost(host: HostMapping, fault: Fault) {
    match host
    case NoHost => fault == Malformed(Host)
    case EmptyHost => false
    case HostMapping(kind, _, _, _, name) =>
      if kind == EnvVar then !(name.Some? && IsText(name.value)) && fault == Malformed(HostName)
      else FaultOfHostPorts(host, fault)
  }

  predicate FaultOfContainer(container: ContainerMapping, fault: Fault) {
    match container
    case BadContainer => fault == Malformed(Container)
    case ContainerMapping(kind, port, first, last) =>
      (match kind
       case UnknownContainer => port.Some? && FaultOfPort(port.value, ContainerPorts(Port), fault)
       case RangeContainer =>
         FaultOfRange(first, last, ContainerPorts(Start), ContainerPorts(End), ContainerPorts(WholeRange), fault)
       case _ => false)
    case _ => false
  }

  /** Of a binding in the schema check. */
  predicate FaultOfForm(binding: BindingMapping, fault: Fault) {
    match binding
    case BadBinding => fault == Malformed(Binding)
    case EmptyBinding => false
    case BindingMapping(environment, _, host, container) =>
      || (!(environment.Some? && IsText(environment.value)) && fault == Malformed(Environment))
      || FaultOfHost(host, fault) || FaultOfContainer(container, fault)
  }

  /** Of a binding that is active, and so must say which host ports it takes. */
  predicate FaultOfUse(binding: BindingMapping, fault: Fault) {
    && binding.BindingMapping? && binding.active && binding.environment.Some? && !binding.host.NoHost?
    && FaultOfHostPorts(binding.host, fault)
  }

  predicate FaultOfBinding(binding: BindingMapping, fault: Fault) {
    FaultOfForm(binding, fault) || FaultOfUse(binding, fault)
  }

  predicate FaultOfHeader(a: AllocationMapping, fault: Fault) {
    match a
    case BadAllocation => fault == Malformed(Allocation)
    case EmptyAllocation => false
    case AllocationMapping(id, protocol, kind, bindings) =>
      || (!(id.TextId? && IsText(id.text)) && fault == Malformed(Id))
      || (protocol !in {Tcp, Udp} && fault == Malformed(Protocol))
      || (kind == UnknownKind && fault == Malformed(BindingKindField))
      || (bindings.None? && fault == Malformed(Bindings))
  }

  function BindingsIn(a: AllocationMapping): seq<BindingMapping> {
    if a.AllocationMapping? && a.bindings.Some? then a.bindings.value else []
  }

  /** Where a fault of the file is reported. */
  ghost predicate FaultAt(allocations: seq<AllocationMapping>, fault: Fault, at: Place) {
    match at
    case AllocationAt(i) => i < |allocations| && FaultOfHeader(allocations[i], fault)
    case BindingAt(i, j) =>
      i < |allocations| && j < |BindingsIn(allocations[i])| && FaultOfBinding(BindingsIn(allocations[i])[j], fault)
    case _ => false
  }

  /** The id an allocation goes by in the duplicate check: its text, or a placeholder if it has none. */
  predicate GoesBy(a: AllocationMapping, placeholder: string, id: string) {
    a.AllocationMapping? && (a.id == TextId(id) || (a.id.NoId? && id == placeholder))
  }

  // ---------------------------------------------------------------- what each step adds

  lemma {:induction false} StepsAdd(log: Log, step: (Log, nat) -> Log, added: (nat, Violation) -> bool, count: nat)
    requires forall l, i: nat, v :: i < count ==> (v in step(l, i) <==> v in l || added(i, v))
    ensures forall v :: v in Steps(log, step, count) <==> v in log || exists i: nat :: i < count && added(i, v)
  {
    if count > 0 {
      StepsAdd(log, step, added, count - 1);
    }
  }

  lemma PortAdds(log: Log, value: PortValue, field: Field, at: Place, v: Violation)
    ensures v in LogPort(log, value, field, at) <==>
      v in log || (v.Schema? && v.at == at && FaultOfPort(value, field, v.fault))
  {
  }

  lemma RangeAdds(log: Log, start: PortValue, end: PortValue, numbered: Number -> Field, at: Place, v: Violation)
    ensures v in LogRange(log, start, end, numbered, at) <==>
      v in log || (v.Schema? && v.at == at
        && FaultOfRange(start, end, numbered(Start), numbered(End), numbered(WholeRange), v.fault))
  {
    PortAdds(log, start, numbered(Start), at, v);
    PortAdds(LogPort(log, start, numbered(Start), at), end, numbered(End), at, v);
  }

  lemma HostPortsAdd(log: Log, host: HostMapping, at: Place, v: Violation)
    ensures v in LogHostInterval(log, host, at) <==>
      v in log || (v.Schema? && v.at == at && FaultOfHostPorts(host, v.fault))
  {
    if host.HostMapping? && IsSingle(host.kind) {
      PortAdds(log, host.port, HostPorts(Port), at, v);
    } else if host.HostMapping? && host.kind.Range? {
      RangeAdds(log, host.start, host.end, HOST_PORTS, at, v);
    }
  }

  lemma HostAdds(log: Log, host: HostMapping, at: Place, v: Violation)
    ensures v in LogHost(log, host, at) <==> v in log || (v.Schema? && v.at == at && FaultOfHost(host, v.fault))
  {
    HostPortsAdd(log, host, at, v);
    if host.HostMapping? {
      TextFits(host.name);
    }
  }

  lemma ContainerAdds(log: Log, container: ContainerMapping, at: Place, v: Violation)
    ensures v in LogContainer(log, container, at) <==>
      v in log || (v.Schema? && v.at == at && FaultOfContainer(container, v.fault))
  {
    if container.ContainerMapping? {
      if container.containerPort.Some? {
        PortAdds(log, container.containerPort.value, ContainerPorts(Port), at, v);
      }
      RangeAdds(log, container.first, container.last, CONTAINER_PORTS, at, v);
    }
  }

  lemma FormAdds(log: Log, binding: BindingMapping, at: Place, v: Violation)
    ensures v in LogBinding(log, binding, at) <==>
      v in log || (v.Schema? && v.at == at && FaultOfForm(binding, v.fault))
  {
    if binding.BindingMapping? {
      var one := if NonBlank(binding.environment) then log else Note(log, Schema(Malformed(Environment), at));
      TextFits(binding.environment);
      HostAdds(one, binding.host, at, v);
      ContainerAdds(LogHost(one, binding.host, at), binding.container, at, v);
    }
  }

  lemma UseAdds(log: Log, binding: BindingMapping, at: Place, v: Violation)
    ensures v in LogLive(log, binding, at) <==> v in log || (v.Schema? && v.at == at && FaultOfUse(binding, v.fault))
  {
    if IsLive(binding) {
      HostPortsAdd(log, binding.host, at, v);
    }
  }

  /** A report about one of these bindings. */
  ghost predicate OfForm(bindings: seq<BindingMapping>, i: nat, j: nat, v: Violation) {
    j < |bindings| && v.Schema? && v.at == BindingAt(i, j) && FaultOfForm(bindings[j], v.fault)
  }

  ghost predicate OfUse(bindings: seq<BindingMapping>, i: nat, j: nat, v: Violation) {
    j < |bindings| && v.Schema? && v.at == BindingAt(i, j) && FaultOfUse(bindings[j], v.fault)
  }

  lemma FormsAdd(log: Log, bindings: seq<BindingMapping>, i: nat, v: Violation)
    ensures v in LogBindings(log, bindings, i) <==> v in log || exists j: nat :: OfForm(bindings, i, j, v)
  {
    var step, added := BindingStep(bindings, i), (j: nat, w: Violation) => OfForm(bindings, i, j, w);
    forall l, j: nat, w | j < |bindings| ensures w in step(l, j) <==> w in l || added(j, w) {
      FormAdds(l, bindings[j], BindingAt(i, j), w);
    }
    StepsAdd(log, step, added, |bindings|);
    assert forall j: nat :: added(j, v) == OfForm(bindings, i, j, v);
  }

  lemma UsesAdd(log: Log, bindings: seq<BindingMapping>, i: nat, v: Violation)
    ensures v in LogLives(log, bindings, i) <==> v in log || exists j: nat :: OfUse(bindings, i, j, v)
  {
    var step, added := LiveStep(bindings, i), (j: nat, w: Violation) => OfUse(bindings, i, j, w);
    forall l, j: nat, w | j < |bindings| ensures w in step(l, j) <==> w in l || added(j, w) {
      UseAdds(l, bindings[j], BindingAt(i, j), w);
    }
    StepsAdd(log, step, added, |bindings|);
    assert forall j: nat :: added(j, v) == OfUse(bindings, i, j, v);
  }

  lemma HeaderAdds(log: Log, id: IdValue, protocol: ProtocolValue, kind: BindingKind, at: Place, v: Violation)
    ensures v in LogHeader(log, id, protocol, kind, at) <==>
      v in log || (v.Schema? && v.at == at &&
        (|| (!(id.TextId? && IsText(id.text)) && v.fault == Malformed(Id))
         || (protocol !in {Tcp, Udp} && v.fault == Malformed(Protocol))
         || (kind == UnknownKind && v.fault == Malformed(BindingKindField))))
  {
    if id.TextId? {
      TextFits(Some(id.text));
    }
  }

  /** A report of the schema check about one allocation. */
  ghost predicate OfAllocation(a: AllocationMapping, i: nat, v: Violation) {
    || (v.Schema? && v.at == AllocationAt(i) && FaultOfHeader(a, v.fault))
    || exists j: nat :: OfForm(BindingsIn(a), i, j, v)
  }

  lemma AllocationAdds(log: Log, a: AllocationMapping, i: nat, v: Violation)
    ensures v in LogAllocation(log, a, i) <==> v in log || OfAllocation(a, i, v)
  {
    if a.AllocationMapping? {
      var headed := LogHeader(log, a.id, a.protocol, a.bindingKind, AllocationAt(i));
      HeaderAdds(log, a.id, a.protocol, a.bindingKind, AllocationAt(i), v);
      if a.bindings.Some? {
        FormsAdd(headed, a.bindings.value, i, v);
        assert BindingsIn(a) == a.bindings.value;
        assert v in LogAllocation(log, a, i) <==> v in LogBindings(headed, a.bindings.value, i);
      } else {
        assert forall j: nat :: !OfForm(BindingsIn(a), i, j, v);
      }
    }
  }

  lemma AllocationsAdd(log: Log, allocations: seq<AllocationMapping>, v: Violation)
    ensures v in LogAllocations(log, allocations) <==>
      v in log || exists i: nat :: i < |allocations| && OfAllocation(allocations[i], i, v)
  {
    var step := AllocationStep(allocations);
    var added := (i: nat, w: Violation) => i < |allocations| && OfAllocation(allocations[i], i, w);
    forall l, i: nat, w | i < |allocations| ensures w in step(l, i) <==> w in l || added(i, w) {
      AllocationAdds(l, allocations[i], i, w);
    }
    StepsAdd(log, step, added, |allocations|);
    assert forall i: nat :: added(i, v) == (i < |allocations| && OfAllocation(allocations[i], i, v));
  }

  // ---------------------------------------------------------------- ids and internal containers

  /** An internal container's binding that is active on the host. */
  ghost predicate OfInternal(a: AllocationMapping, slot: string, j: nat, v: Violation) {
    && a.AllocationMapping? && a.bindingKind == InternalContainer && j < |BindingsIn(a)|
    && TakesHostPorts(BindingsIn(a)[j]) && v.InternalPublish? && NamesId(a.id, slot, v.owner)
    && v.hostType == BindingsIn(a)[j].host.kind
  }

  lemma InternalAdds(log: Log, a: AllocationMapping, i: nat, naming: Naming, v: Violation)
    ensures v in LogInternal(log, a, i, naming) <==> v in log || exists j: nat :: OfInternal(a, naming.slot(i), j, v)
  {
    if IsInternal(a) {
      var bindings, owner := BindingsOf(a), IdOf(a.id, naming.slot(i));
      var step, added := PublishStep(bindings, owner), (j: nat, w: Violation) => OfInternal(a, naming.slot(i), j, w);
      forall l, j: nat, w | j < |bindings| ensures w in step(l, j) <==> w in l || added(j, w) {
        BindingFitsExactly(bindings[j]);
        assert NamesId(a.id, naming.slot(i), owner);
      }
      StepsAdd(log, step, added, |bindings|);
      assert forall j: nat :: added(j, v) == OfInternal(a, naming.slot(i), j, v);
    }
  }

  lemma InternalsAdd(log: Log, allocations: seq<AllocationMapping>, naming: Naming, v: Violation)
    ensures v in LogInternals(log, allocations, naming) <==>
      v in log || exists i: nat, j: nat :: i < |allocations| && OfInternal(allocations[i], naming.slot(i), j, v)
  {
    var step := InternalStep(allocations, naming);
    var added := (i: nat, w: Violation) =>
      i < |allocations| && exists j: nat :: OfInternal(allocations[i], naming.slot(i), j, w);
    forall l, i: nat, w | i < |allocations| ensures w in step(l, i) <==> w in l || added(i, w) {
      InternalAdds(l, allocations[i], i, naming, w);
    }
    StepsAdd(log, step, added, |allocations|);
    assert forall i: nat :: i < |allocations| ==>
      added(i, v) == exists j: nat :: OfInternal(allocations[i], naming.slot(i), j, v);
  }

  /** Two allocations of one id; the later one is reported. */
  ghost predicate OfDuplicate(allocations: seq<AllocationMapping>, naming: Naming, i: nat, v: Violation) {
    && i < |allocations| && v.DuplicateId? && GoesBy(allocations[i], naming.placeholder(i), v.id)
    && exists k: nat :: k < i && GoesBy(allocations[k], naming.placeholder(k), v.id)
  }

  lemma IdsBefore(allocations: seq<AllocationMapping>, n: nat, naming: Naming, id: string)
    requires n <= |allocations|
    ensures id in IdsTo(allocations, n, naming) <==>
      exists k: nat :: k < n && GoesBy(allocations[k], naming.placeholder(k), id)
  {
    IdsToAre(allocations, n, naming, id);
    forall k: nat | k < n
      ensures IdAt(allocations, k, naming, id) <==> GoesBy(allocations[k], naming.placeholder(k), id)
    {
    }
  }

  lemma IdAdds(log: Log, allocations: seq<AllocationMapping>, i: nat, naming: Naming, v: Violation)
    requires i < |allocations|
    ensures v in LogId(log, allocations[i], i, IdsTo(allocations, i, naming), naming) <==>
      v in log || OfDuplicate(allocations, naming, i, v)
  {
    if v.DuplicateId? {
      IdsBefore(allocations, i, naming, v.id);
    }
    if HasTextId(allocations[i]) {
      IdsBefore(allocations, i, naming, IdOf(allocations[i].id, naming.placeholder(i)));
    }
  }

  /** What the collector reports about one allocation. */
  ghost predicate OfCollected(allocations: seq<AllocationMapping>, naming: Naming, i: nat, v: Violation) {
    i < |allocations| &&
    (|| OfAllocation(allocations[i], i, v) || OfDuplicate(allocations, naming, i, v)
     || exists j: nat :: OfUse(BindingsIn(allocations[i]), i, j, v))
  }

  lemma CollectedAdds(log: Log, allocations: seq<AllocationMapping>, i: nat, naming: Naming, v: Violation)
    requires i < |allocations|
    ensures v in LogCollected(log, allocations[i], i, IdsTo(allocations, i, naming), naming) <==>
      v in log || OfCollected(allocations, naming, i, v)
  {
    var a := allocations[i];
    var one := LogAllocation(log, a, i);
    AllocationAdds(log, a, i, v);
    IdAdds(one, allocations, i, naming, v);
    UsesAdd(LogId(one, a, i, IdsTo(allocations, i, naming), naming), BindingsOf(a), i, v);
    assert BindingsOf(a) == BindingsIn(a);
  }

  lemma CollectorAdds(log: Log, allocations: seq<AllocationMapping>, naming: Naming, v: Violation)
    ensures v in LogCollector(log, allocations, naming) <==>
      v in log || exists i: nat :: OfCollected(allocations, naming, i, v)
  {
    var step := CollectorStep(allocations, naming);
    var added := (i: nat, w: Violation) => OfCollected(allocations, naming, i, w);
    forall l, i: nat, w | i < |allocations| ensures w in step(l, i) <==> w in l || added(i, w) {
      CollectedAdds(l, allocations, i, naming, w);
    }
    StepsAdd(log, step, added, |allocations|);
    assert forall i: nat :: added(i, v) == OfCollected(allocations, naming, i, v);
  }

  // ---------------------------------------------------------------- the whole report

  /** What is wrong with a list of allocations, and how it is reported. */
  ghost predicate IsWrong(allocations: seq<AllocationMapping>, naming: Naming, v: Violation) {
    match v
    case Schema(fault, at) => FaultAt(allocations, fault, at)
    case DuplicateId(_) => exists i: nat :: OfDuplicate(allocations, naming, i, v)
    case InternalPublish(_, _) =>
      exists i: nat, j: nat :: i < |allocations| && OfInternal(allocations[i], naming.slot(i), j, v)
    case HostCollision(_, _, _, _, _, _) => exists a, b :: Accuses(allocations, naming, v, a, b)
  }

  lemma FaultsAre(allocations: seq<AllocationMapping>, naming: Naming, v: Violation)
    requires v.Schema?
    ensures (exists i: nat :: OfCollected(allocations, naming, i, v)) <==> FaultAt(allocations, v.fault, v.at)
    ensures (exists i: nat :: i < |allocations| && OfAllocation(allocations[i], i, v)) ==>
      FaultAt(allocations, v.fault, v.at)
  {
    if FaultAt(allocations, v.fault, v.at) {
      match v.at
      case AllocationAt(i) => assert OfCollected(allocations, naming, i, v);
      case BindingAt(i, j) =>
        assert OfForm(BindingsIn(allocations[i]), i, j, v) || OfUse(BindingsIn(allocations[i]), i, j, v);
        assert OfCollected(allocations, naming, i, v);
      case _ =>
    }
  }

  lemma BeforeCollisionsSay(log: Log, allocations: seq<AllocationMapping>, naming: Naming, v: Violation)
    requires !v.HostCollision?
    ensures v in LogBeforeCollisions(log, allocations, naming) <==> v in log || IsWrong(allocations, naming, v)
  {
    var one := LogAllocations(log, allocations);
    var two := LogInternals(one, allocations, naming);
    AllocationsAdd(log, allocations, v);
    InternalsAdd(one, allocations, naming, v);
    CollectorAdds(two, allocations, naming, v);
    if v.Schema? {
      FaultsAre(allocations, naming, v);
    }
    if i: nat :| OfDuplicate(allocations, naming, i, v) {
      assert OfCollected(allocations, naming, i, v);
    }
  }

  /**
   The report is the list of what is wrong: with the file as a whole, with the form of an allocation or a binding, with
   an active binding's ports, an id used twice, an internal container on the host, or two bindings that cannot both be
   up -- each where it is, and nothing else.
   */
  lemma ReportIsWhatIsWrong(registry: RegistryMapping, naming: Naming, sort: set<Key> -> seq<Key>, v: Violation)
    requires Enumerates(sort)
    ensures v in Report(registry, naming, sort) <==>
      match registry
      case BadRegistry => v == Schema(Malformed(Registry), Root)
      case RegistryMapping(versionIsOne, allocations) =>
        || (!versionIsOne && v == Schema(Malformed(Version), VersionField))
        || (if allocations.None? || allocations == Some([]) then v == Schema(Malformed(Allocations), AllocationsField)
            else IsWrong(allocations.value, naming, v))
  {
    if IsReadable(registry) {
      var allocations := registry.allocations.value;
      var log := if registry.versionIsOne then [] else Note([], Schema(Malformed(Version), VersionField));
      if v.HostCollision? {
        ReportsNameThePairs(registry, naming, sort, v);
      } else {
        BeforeCollisionsSay(log, allocations, naming, v);
        CollisionsSayNoMore(LogBeforeCollisions(log, allocations, naming), allocations, naming, sort, v);
      }
    }
  }

  lemma CollisionsSayNoMore(log: Log, allocations: seq<AllocationMapping>, naming: Naming, sort: set<Key> -> seq<Key>,
                            v: Violation)
    requires Enumerates(sort) && !v.HostCollision?
    ensures v in LogCollisions(log, GroupsTo(allocations, |allocations|, naming), sort) <==> v in log
  {
    CollisionsSay(log, GroupsTo(allocations, |allocations|, naming), sort, v);
  }
}
