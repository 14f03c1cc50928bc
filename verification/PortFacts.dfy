/**
 The port verifier's verdict read off the registry file: which bindings clash, and what a registry must be to pass.
 */
module PortFacts {
  import opened Wrappers
  import opened Strings
  import opened Ports
  import opened PortCollisions

  // ---------------------------------------------------------------- positions in the file

  /** Allocation `allocation`, binding `binding`. */
  datatype Position = Position(allocation: nat, binding: nat)

  predicate Before(a: Position, b: Position) {
    a.allocation < b.allocation || (a.allocation == b.allocation && a.binding < b.binding)
  }

  predicate IsPort(value: PortValue) {
    value.Integer? && 1 <= value.number <= 65535
  }

  /** The file has a binding there. */
  predicate IsThere(allocations: seq<AllocationMapping>, at: Position) {
    && at.allocation < |allocations| && allocations[at.allocation].AllocationMapping?
    && allocations[at.allocation].bindings.Some? && at.binding < |allocations[at.allocation].bindings.value|
    && allocations[at.allocation].bindings.value[at.binding].BindingMapping?
  }

  function BindingThere(allocations: seq<AllocationMapping>, at: Position): BindingMapping
    requires IsThere(allocations, at)
  {
    allocations[at.allocation].bindings.value[at.binding]
  }

  /** The ports a host mapping is for: its one port, or those from start to end. */
  predicate IsFor(host: HostMapping, port: int) {
    host.HostMapping? &&
    match host.kind
    case Fixed => IsPort(host.port) && port == host.port.number
    case Loopback => IsPort(host.port) && port == host.port.number
    case Range => IsPort(host.start) && IsPort(host.end) && host.start.number <= port <= host.end.number
    case _ => false
  }

  /** The binding there is active, in a named environment, and takes this host port. */
  predicate Takes(allocations: seq<AllocationMapping>, at: Position, port: int) {
    && IsThere(allocations, at) && BindingThere(allocations, at).active
    && BindingThere(allocations, at).environment.Some? && IsFor(BindingThere(allocations, at).host, port)
  }

  /** A missing protocol is tcp; an unknown one stands for itself. */
  predicate SameProtocol(p: ProtocolValue, q: ProtocolValue) {
    match (p, q)
    case (UnknownProtocol(a), UnknownProtocol(b)) => a == b
    case (UnknownProtocol(a), Udp) => a == "udp"
    case (Udp, UnknownProtocol(b)) => b == "udp"
    case (UnknownProtocol(a), _) => a == "tcp"
    case (_, UnknownProtocol(b)) => b == "tcp"
    case (Udp, Udp) => true
    case (Udp, _) => false
    case (_, Udp) => false
    case (_, _) => true
  }

  /** Two bindings that cannot both be up. */
  ghost predicate CannotBothBeUp(allocations: seq<AllocationMapping>, a: Position, b: Position) {
    && IsThere(allocations, a) && IsThere(allocations, b)
    && BindingThere(allocations, a).environment == BindingThere(allocations, b).environment
    && SameProtocol(allocations[a.allocation].protocol, allocations[b.allocation].protocol)
    && exists port :: Takes(allocations, a, port) && Takes(allocations, b, port)
  }

  /** All pairs of bindings that cannot both be up, each counted once. */
  ghost function ClashingPairs(allocations: seq<AllocationMapping>): set<(Position, Position)> {
    set a, b | a in Positions(allocations) && b in Positions(allocations) && Before(a, b)
      && CannotBothBeUp(allocations, a, b) :: (a, b)
  }

  function BindingCount(a: AllocationMapping): nat {
    if a.AllocationMapping? && a.bindings.Some? then |a.bindings.value| else 0
  }

  ghost function Positions(allocations: seq<AllocationMapping>): set<Position> {
    set i: nat, j: nat | i < |allocations| && j < BindingCount(allocations[i]) :: Position(i, j)
  }

  // ---------------------------------------------------------------- where the active bindings come from

  function OriginOf(binding: BindingMapping, at: Position): seq<Position> {
    if IsLive(binding) && HostIntervalOf(binding.host).Some? then [at] else []
  }

  function BindingOrigins(bindings: seq<BindingMapping>, i: nat): nat -> seq<Position> {
    (j: nat) => if j < |bindings| then OriginOf(bindings[j], Position(i, j)) else []
  }

  function AllocationOrigins(allocations: seq<AllocationMapping>): nat -> seq<Position> {
    (i: nat) => if i < |allocations| then
      Flat(BindingOrigins(BindingsOf(allocations[i]), i), |BindingsOf(allocations[i])|)
      else []
  }

  function Origins(allocations: seq<AllocationMapping>): seq<Position> {
    Flat(AllocationOrigins(allocations), |allocations|)
  }

  predicate Ordered(s: seq<Position>) {
    forall x, y :: 0 <= x < y < |s| ==> Before(s[x], s[y])
  }

  lemma {:induction false} FlatHas<T>(part: nat -> seq<T>, count: nat, t: T)
    ensures t in Flat(part, count) <==> exists i: nat :: i < count && t in part(i)
  {
    if count > 0 {
      FlatHas(part, count - 1, t);
    }
  }

  lemma {:induction false} FlatOrdered(part: nat -> seq<Position>, count: nat)
    requires forall i: nat :: i < count ==> Ordered(part(i))
    requires forall i: nat, j: nat, a, b :: i < j < count && a in part(i) && b in part(j) ==> Before(a, b)
    ensures Ordered(Flat(part, count))
  {
    if count > 0 {
      FlatOrdered(part, count - 1);
      var init := Flat(part, count - 1);
      forall a, b | a in init && b in part(count - 1) ensures Before(a, b) {
        FlatHas(part, count - 1, a);
      }
      var all := init + part(count - 1);
      forall x, y | 0 <= x < y < |all| ensures Before(all[x], all[y]) {
        if x < |init| {
          assert all[x] in init;
          if y >= |init| {
            assert all[y] in part(count - 1);
          }
        }
      }
    }
  }

  /** Two lists made in parallel agree place by place. */
  lemma {:induction false} FlatsAgree<S, T>(p: nat -> seq<S>, q: nat -> seq<T>, count: nat, agree: (S, T) -> bool)
    requires forall i: nat :: i < count ==> |p(i)| == |q(i)| && forall x :: 0 <= x < |p(i)| ==> agree(p(i)[x], q(i)[x])
    ensures |Flat(p, count)| == |Flat(q, count)|
    ensures forall x :: 0 <= x < |Flat(p, count)| ==> agree(Flat(p, count)[x], Flat(q, count)[x])
  {
    if count > 0 {
      FlatsAgree(p, q, count - 1, agree);
    }
  }

  lemma HostPortsAre(host: HostMapping, port: int)
    ensures IsFor(host, port) <==> HostIntervalOf(host).Some? && HostIntervalOf(host).value.Holds(port)
  {
  }

  /** The place in the file an active binding was read from. */
  predicate ReadFrom(allocations: seq<AllocationMapping>, naming: Naming, at: Position, a: Active) {
    && IsThere(allocations, at) && IsLive(BindingThere(allocations, at))
    && BindingThere(allocations, at).environment == Some(a.environment)
    && a.protocol == ProtocolOf(allocations[at.allocation].protocol)
    && a.id == IdOf(allocations[at.allocation].id, naming.placeholder(at.allocation))
    && HostIntervalOf(BindingThere(allocations, at).host) == Some(a.interval)
  }

  lemma ReadTakes(allocations: seq<AllocationMapping>, naming: Naming, at: Position, a: Active, port: int)
    requires ReadFrom(allocations, naming, at, a)
    ensures Takes(allocations, at, port) <==> a.interval.Holds(port)
  {
    HostPortsAre(BindingThere(allocations, at).host, port);
  }

  lemma OriginsAgree(allocations: seq<AllocationMapping>, naming: Naming)
    ensures |Origins(allocations)| == |ActivesOf(allocations, naming)|
    ensures forall x :: 0 <= x < |Origins(allocations)| ==>
      ReadFrom(allocations, naming, Origins(allocations)[x], ActivesOf(allocations, naming)[x])
  {
    var agree := (at: Position, a: Active) => ReadFrom(allocations, naming, at, a);
    var p, q := AllocationOrigins(allocations), AllocationPart(allocations, naming);
    forall i: nat | i < |allocations|
      ensures |p(i)| == |q(i)| && forall x :: 0 <= x < |p(i)| ==> agree(p(i)[x], q(i)[x])
    {
      AllocationAgrees(allocations, i, naming);
    }
    FlatsAgree(p, q, |allocations|, agree);
    assert forall x :: 0 <= x < |Origins(allocations)| ==>
      agree(Origins(allocations)[x], ActivesOf(allocations, naming)[x]);
  }

  lemma AllocationAgrees(allocations: seq<AllocationMapping>, i: nat, naming: Naming)
    requires i < |allocations|
    ensures var p, q := AllocationOrigins(allocations)(i), AllocationPart(allocations, naming)(i);
      |p| == |q| && forall x :: 0 <= x < |p| ==> ReadFrom(allocations, naming, p[x], q[x])
  {
    var a := allocations[i];
    if a.AllocationMapping? {
      var agree := (at: Position, b: Active) => ReadFrom(allocations, naming, at, b);
      var id := IdOf(a.id, naming.placeholder(i));
      var p, q := BindingOrigins(BindingsOf(a), i), BindingPart(BindingsOf(a), ProtocolOf(a.protocol), id);
      FlatsAgree(p, q, |BindingsOf(a)|, agree);
      assert forall x :: 0 <= x < |Flat(p, |BindingsOf(a)|)| ==>
        agree(Flat(p, |BindingsOf(a)|)[x], Flat(q, |BindingsOf(a)|)[x]);
    }
  }

  lemma AllocationIsOrdered(allocations: seq<AllocationMapping>, i: nat)
    requires i < |allocations|
    ensures Ordered(AllocationOrigins(allocations)(i))
    ensures forall at :: at in AllocationOrigins(allocations)(i) ==> at.allocation == i
  {
    var bindings := BindingsOf(allocations[i]);
    var part := BindingOrigins(bindings, i);
    FlatOrdered(part, |bindings|);
    forall at: Position | at in Flat(part, |bindings|) ensures at.allocation == i {
      FlatHas(part, |bindings|, at);
    }
  }

  lemma OriginsAreOrdered(allocations: seq<AllocationMapping>)
    ensures Ordered(Origins(allocations))
  {
    var part := AllocationOrigins(allocations);
    forall i: nat | i < |allocations|
      ensures Ordered(part(i)) && forall at :: at in part(i) ==> at.allocation == i
    {
      AllocationIsOrdered(allocations, i);
    }
    FlatOrdered(part, |allocations|);
  }

  lemma TakersAreOrigins(allocations: seq<AllocationMapping>, at: Position, port: int)
    requires Takes(allocations, at, port)
    ensures at in Origins(allocations)
  {
    var bindings := BindingsOf(allocations[at.allocation]);
    HostPortsAre(BindingThere(allocations, at).host, port);
    var part := BindingOrigins(bindings, at.allocation);
    assert at in part(at.binding);
    FlatHas(part, |bindings|, at);
    FlatHas(AllocationOrigins(allocations), |allocations|, at);
    assert at in AllocationOrigins(allocations)(at.allocation);
  }

  // ---------------------------------------------------------------- the clashing pairs of the file

  lemma ProtocolsByValue(p: ProtocolValue, q: ProtocolValue)
    ensures ProtocolOf(p) == ProtocolOf(q) <==> SameProtocol(p, q)
  {
    assert "tcp"[0] != "udp"[0];
  }

  lemma ClashesAreInTheFile(allocations: seq<AllocationMapping>, naming: Naming, a: Position, b: Position, left: Active,
                            right: Active)
    requires ReadFrom(allocations, naming, a, left) && ReadFrom(allocations, naming, b, right)
    ensures Clash(left, right) <==> CannotBothBeUp(allocations, a, b)
  {
    ProtocolsByValue(allocations[a.allocation].protocol, allocations[b.allocation].protocol);
    forall port ensures Takes(allocations, a, port) <==> left.interval.Holds(port) {
      ReadTakes(allocations, naming, a, left, port);
    }
    forall port ensures Takes(allocations, b, port) <==> right.interval.Holds(port) {
      ReadTakes(allocations, naming, b, right, port);
    }
  }

  lemma SameSize(pairs: set<(nat, nat)>, s: seq<Position>, images: set<(Position, Position)>)
    requires Ordered(s) && forall p :: p in pairs ==> p.0 < |s| && p.1 < |s| && (s[p.0], s[p.1]) in images
    requires forall q :: q in images ==> exists p :: p in pairs && q == (s[p.0], s[p.1])
    ensures |pairs| == |images|
  {
    if pairs == {} {
      assert images == {};
    } else {
      var p :| p in pairs;
      var q := (s[p.0], s[p.1]);
      forall r | r in pairs - {p} ensures (s[r.0], s[r.1]) in images - {q} {
        if (s[r.0], s[r.1]) == q {
          OrderedOnce(s, r.0, p.0);
          OrderedOnce(s, r.1, p.1);
        }
      }
      SameSize(pairs - {p}, s, images - {q});
    }
  }

  lemma OrderedOnce(s: seq<Position>, x: nat, y: nat)
    requires Ordered(s) && x < |s| && y < |s| && s[x] == s[y]
    ensures x == y
  {
  }

  /** The clashes among the active bindings are those of the file, pair by pair. */
  lemma ClashesAreCounted(allocations: seq<AllocationMapping>, naming: Naming)
    ensures |Clashes(ActivesOf(allocations, naming))| == |ClashingPairs(allocations)|
  {
    var actives, origins := ActivesOf(allocations, naming), Origins(allocations);
    OriginsAgree(allocations, naming);
    OriginsAreOrdered(allocations);
    forall p | p in Clashes(actives) ensures (origins[p.0], origins[p.1]) in ClashingPairs(allocations) {
      ClashesAreInTheFile(allocations, naming, origins[p.0], origins[p.1], actives[p.0], actives[p.1]);
    }
    forall q | q in ClashingPairs(allocations)
      ensures exists p :: p in Clashes(actives) && q == (origins[p.0], origins[p.1])
    {
      PairHasIndices(allocations, naming, q.0, q.1);
    }
    SameSize(Clashes(actives), origins, ClashingPairs(allocations));
  }

  lemma PairHasIndices(allocations: seq<AllocationMapping>, naming: Naming, a: Position, b: Position)
    requires Before(a, b) && CannotBothBeUp(allocations, a, b)
    ensures |Origins(allocations)| == |ActivesOf(allocations, naming)|
    ensures exists p ::
      p in Clashes(ActivesOf(allocations, naming)) && (a, b) == (Origins(allocations)[p.0], Origins(allocations)[p.1])
  {
    var actives, origins := ActivesOf(allocations, naming), Origins(allocations);
    OriginsAgree(allocations, naming);
    OriginsAreOrdered(allocations);
    var port :| Takes(allocations, a, port) && Takes(allocations, b, port);
    TakersAreOrigins(allocations, a, port);
    TakersAreOrigins(allocations, b, port);
    var x: nat :| x < |origins| && origins[x] == a;
    var y: nat :| y < |origins| && origins[y] == b;
    ClashesAreInTheFile(allocations, naming, a, b, actives[x], actives[y]);
    OrderedSo(origins, x, y);
    assert (x, y) in Clashes(actives);
  }

  lemma OrderedSo(s: seq<Position>, x: nat, y: nat)
    requires Ordered(s) && x < |s| && y < |s| && Before(s[x], s[y])
    ensures x < y
  {
  }

  /**
   The number of collision reports is the number of pairs of bindings in the file that cannot both be up, whatever else
   is wrong with it.
   */
  lemma CollisionsByTheFile(registry: RegistryMapping, naming: Naming, sort: set<Key> -> seq<Key>)
    requires Enumerates(sort) && registry.RegistryMapping? && registry.allocations.Some?
    ensures Collisions(Report(registry, naming, sort)) == |ClashingPairs(registry.allocations.value)|
  {
    var allocations := registry.allocations.value;
    if allocations == [] {
      assert ClashingPairs([]) == {};
      Noted([], Schema(Malformed(Version), VersionField));
      Noted([], Schema(Malformed(Allocations), AllocationsField));
      Noted(Note([], Schema(Malformed(Version), VersionField)), Schema(Malformed(Allocations), AllocationsField));
    } else {
      ReportsAreExactlyTheClashes(registry, naming, sort);
      ClashesAreCounted(allocations, naming);
    }
  }

  // ---------------------------------------------------------------- what passes

  predicate IsText(s: string) {
    Strip(s) != ""
  }

  predicate IsPortRange(start: PortValue, end: PortValue) {
    IsPort(start) && IsPort(end) && start.number <= end.number
  }

  /** A host of a known type with what that type needs. */
  predicate HostFits(host: HostMapping) {
    host.HostMapping? &&
    match host.kind
    case Fixed => IsPort(host.port)
    case Loopback => IsPort(host.port)
    case Range => IsPortRange(host.start, host.end)
    case EnvVar => host.name.Some? && IsText(host.name.value)
    case Unpublished => true
    case UnresolvedHost => true
    case UnknownHostKind => false
  }

  /** A container is looked into only if it is a range, or of an unknown type with a port. */
  predicate ContainerFits(container: ContainerMapping) {
    match container
    case NoContainer => true
    case BadContainer => false
    case EmptyContainer => true
    case ContainerMapping(kind, port, first, last) =>
      match kind
      case RangeContainer => IsPortRange(first, last)
      case UnknownContainer => port.Some? ==> IsPort(port.value)
      case _ => true
  }

  /** An empty binding passes; an empty host passes only on a binding that is not active. */
  predicate BindingFits(binding: BindingMapping) {
    match binding
    case BadBinding => false
    case EmptyBinding => true
    case BindingMapping(environment, active, host, container) =>
      && environment.Some? && IsText(environment.value)
      && (HostFits(host) || (host.EmptyHost? && !active)) && ContainerFits(container)
  }

  predicate TakesHostPorts(binding: BindingMapping) {
    && binding.BindingMapping? && binding.active && binding.host.HostMapping?
    && binding.host.kind in {Fixed, Loopback, Range}
  }

  predicate AllocationFits(a: AllocationMapping) {
    match a
    case BadAllocation => false
    case EmptyAllocation => true
    case AllocationMapping(id, protocol, kind, bindings) =>
      && id.TextId? && IsText(id.text) && protocol in {Tcp, Udp} && kind in {InternalContainer, OtherKnownKind}
      && bindings.Some?
      && BindingsFit(bindings.value) && (kind == InternalContainer ==> NoneTakesHostPorts(bindings.value))
  }

  predicate BindingsFit(bindings: seq<BindingMapping>) {
    forall j :: 0 <= j < |bindings| ==> BindingFits(bindings[j])
  }

  predicate NoneTakesHostPorts(bindings: seq<BindingMapping>) {
    forall j :: 0 <= j < |bindings| ==> !TakesHostPorts(bindings[j])
  }

  predicate SameId(a: AllocationMapping, b: AllocationMapping) {
    a.AllocationMapping? && b.AllocationMapping? && a.id == b.id
  }

  /** A registry in order, condition by condition. */
  ghost predicate IsInOrder(registry: RegistryMapping) {
    && registry.RegistryMapping? && registry.versionIsOne && registry.allocations.Some?
    && var allocations := registry.allocations.value;
       && allocations != []
       && (forall i :: 0 <= i < |allocations| ==> AllocationFits(allocations[i]))
       && (forall i, j :: 0 <= i < j < |allocations| ==> !SameId(allocations[i], allocations[j]))
       && (forall a, b :: Before(a, b) ==> !CannotBothBeUp(allocations, a, b))
  }

  lemma HostFitsExactly(host: HostMapping)
    ensures HostFits(host) <==> !host.EmptyHost? && HostIsSound(host)
    ensures HostFits(host) ==> NumbersAreSound(host)
  {
    if host.HostMapping? {
      NumbersFit(host);
      TextFits(host.name);
    }
  }

  lemma TextFits(name: Option<string>)
    ensures NonBlank(name) <==> name.Some? && IsText(name.value)
  {
  }

  lemma NumbersFit(host: HostMapping)
    requires host.HostMapping?
    ensures NumbersAreSound(host) <==>
      match host.kind
      case Fixed => IsPort(host.port)
      case Loopback => IsPort(host.port)
      case Range => IsPortRange(host.start, host.end)
      case UnknownHostKind => false
      case _ => true
  {
  }

  lemma ContainerFitsExactly(container: ContainerMapping)
    ensures ContainerFits(container) <==> ContainerIsSound(container)
  {
  }

  lemma BindingFitsExactly(binding: BindingMapping)
    ensures BindingFits(binding) <==> BindingIsSound(binding) && LiveIsSound(binding)
    ensures TakesHostPorts(binding) <==> Publishes(binding)
  {
    if binding.BindingMapping? {
      HostFitsExactly(binding.host);
      ContainerFitsExactly(binding.container);
    }
  }

  lemma AllocationFitsExactly(a: AllocationMapping)
    ensures AllocationFits(a) <==> AllocationPasses(a)
  {
    if a.AllocationMapping? {
      HeaderFitsExactly(a.id, a.protocol, a.bindingKind);
      PassesMeans(a);
      BindingsFitExactly(BindingsOf(a));
    }
  }

  lemma PassesMeans(a: AllocationMapping)
    requires a.AllocationMapping?
    ensures AllocationPasses(a) <==>
      && HeaderIsSound(a.id, a.protocol, a.bindingKind) && a.bindings.Some? && AreSound(a.bindings.value)
      && (a.bindingKind.InternalContainer? ==> NonePublishes(a.bindings.value))
  {
    if a.bindings.Some? {
      SoundMeans(a, a.bindings.value);
      InternalMeans(a, a.bindings.value);
    }
  }

  lemma SoundMeans(a: AllocationMapping, bindings: seq<BindingMapping>)
    requires a.AllocationMapping? && a.bindings == Some(bindings)
    ensures AllocationIsSound(a) && LivesAreSound(a) <==>
      HeaderIsSound(a.id, a.protocol, a.bindingKind) && AreSound(bindings)
  {
    assert BindingsOf(a) == bindings;
    LivesMean(a, bindings);
    var sound := forall j :: 0 <= j < |bindings| ==> BindingIsSound(bindings[j]);
    assert AllocationIsSound(a) <==> HeaderIsSound(a.id, a.protocol, a.bindingKind) && sound;
  }

  lemma LivesMean(a: AllocationMapping, bindings: seq<BindingMapping>)
    requires BindingsOf(a) == bindings
    ensures LivesAreSound(a) <==> forall j :: 0 <= j < |bindings| ==> LiveIsSound(bindings[j])
  {
  }

  lemma InternalMeans(a: AllocationMapping, bindings: seq<BindingMapping>)
    requires a.AllocationMapping? && a.bindings == Some(bindings)
    ensures StaysInternal(a) <==> (a.bindingKind.InternalContainer? ==> NonePublishes(bindings))
  {
    assert BindingsOf(a) == bindings;
  }

  predicate AreSound(bindings: seq<BindingMapping>) {
    && (forall j :: 0 <= j < |bindings| ==> BindingIsSound(bindings[j]))
    && (forall j :: 0 <= j < |bindings| ==> LiveIsSound(bindings[j]))
  }

  predicate NonePublishes(bindings: seq<BindingMapping>) {
    forall j :: 0 <= j < |bindings| ==> !Publishes(bindings[j])
  }

  lemma HeaderFitsExactly(id: IdValue, protocol: ProtocolValue, kind: BindingKind)
    ensures HeaderIsSound(id, protocol, kind) <==>
      id.TextId? && IsText(id.text) && protocol in {Tcp, Udp} && kind in {InternalContainer, OtherKnownKind}
  {
  }

  lemma BindingsFitExactly(bindings: seq<BindingMapping>)
    ensures BindingsFit(bindings) <==> AreSound(bindings)
    ensures NoneTakesHostPorts(bindings) <==> NonePublishes(bindings)
  {
    forall j | 0 <= j < |bindings|
      ensures BindingFits(bindings[j]) <==> BindingIsSound(bindings[j]) && LiveIsSound(bindings[j])
      ensures TakesHostPorts(bindings[j]) <==> Publishes(bindings[j])
    {
      BindingFitsExactly(bindings[j]);
    }
  }

  lemma IdsByText(allocations: seq<AllocationMapping>, naming: Naming)
    requires forall i :: 0 <= i < |allocations| ==> AllocationFits(allocations[i])
    ensures IdsAreDistinct(allocations, |allocations|, naming) <==>
      forall i, j :: 0 <= i < j < |allocations| ==> !SameId(allocations[i], allocations[j])
  {
    forall i: nat, j: nat | i < j < |allocations|
      ensures SameId(allocations[i], allocations[j]) <==>
        exists id :: IdAt(allocations, i, naming, id) && IdAt(allocations, j, naming, id)
    {
      if SameId(allocations[i], allocations[j]) {
        assert IdAt(allocations, i, naming, allocations[i].id.text);
        assert IdAt(allocations, j, naming, allocations[i].id.text);
      }
    }
  }

  lemma NoPairs(allocations: seq<AllocationMapping>)
    ensures |ClashingPairs(allocations)| == 0 <==>
      forall a, b :: Before(a, b) ==> !CannotBothBeUp(allocations, a, b)
  {
    if |ClashingPairs(allocations)| == 0 {
      forall a, b | Before(a, b) ensures !CannotBothBeUp(allocations, a, b) {
        assert (a, b) !in ClashingPairs(allocations);
      }
    } else {
      var pair :| pair in ClashingPairs(allocations);
    }
  }

  /** A registry passes exactly if it is in order: the verdict, read off the file. */
  lemma VerdictByTheFile(registry: RegistryMapping, naming: Naming, sort: set<Key> -> seq<Key>)
    requires Enumerates(sort)
    ensures Report(registry, naming, sort) == [] <==> IsInOrder(registry)
  {
    VerdictIsExact(registry, naming, sort);
    if IsReadable(registry) {
      var allocations := registry.allocations.value;
      forall i | 0 <= i < |allocations| ensures AllocationFits(allocations[i]) <==> AllocationPasses(allocations[i]) {
        AllocationFitsExactly(allocations[i]);
      }
      if forall i :: 0 <= i < |allocations| ==> AllocationFits(allocations[i]) {
        IdsByText(allocations, naming);
      }
      ClashesAreCounted(allocations, naming);
      NoPairs(allocations);
      NoClashes(ActivesOf(allocations, naming));
    }
  }

  lemma NoClashes(actives: seq<Active>)
    ensures |Clashes(actives)| == 0 <==> forall i, j :: 0 <= i < j < |actives| ==> !Clash(actives[i], actives[j])
  {
    if |Clashes(actives)| == 0 {
      forall i: nat, j: nat | i < j < |actives| ensures !Clash(actives[i], actives[j]) {
        assert (i, j) !in Clashes(actives);
      }
    } else {
      var pair :| pair in Clashes(actives);
      assert Clash(actives[pair.0], actives[pair.1]);
    }
  }

  // ---------------------------------------------------------------- what a collision report says

  predicate NamesProtocol(p: ProtocolValue, text: string) {
    match p
    case Udp => text == "udp"
    case UnknownProtocol(shown) => text == shown
    case _ => text == "tcp"
  }

  predicate NamesId(id: IdValue, placeholder: string, text: string) {
    match id
    case NoId => text == placeholder
    case TextId(own) => text == own
    case OtherId(shown) => text == shown
  }

  predicate IsInterval(host: HostMapping, interval: PortInterval) {
    host.HostMapping? &&
    if host.kind.Range? then
      && IsPortRange(host.start, host.end)
      && interval == PortInterval(host.start.number, host.end.number)
    else
      && host.kind in {Fixed, Loopback} && IsPort(host.port)
      && interval == PortInterval(host.port.number, host.port.number)
  }

  /** One side of a report: the binding's environment and protocol, its allocation's name, and its ports. */
  predicate NamesSide(allocations: seq<AllocationMapping>, naming: Naming, at: Position, environment: string,
                      protocol: string, id: string, interval: PortInterval)
  {
    && IsThere(allocations, at) && BindingThere(allocations, at).active
    && BindingThere(allocations, at).environment == Some(environment)
    && NamesProtocol(allocations[at.allocation].protocol, protocol)
    && NamesId(allocations[at.allocation].id, naming.placeholder(at.allocation), id)
    && IsInterval(BindingThere(allocations, at).host, interval)
  }

  predicate NamesPair(allocations: seq<AllocationMapping>, naming: Naming, v: Violation, a: Position, b: Position) {
    && v.HostCollision?
    && NamesSide(allocations, naming, a, v.environment, v.protocol, v.leftId, v.left)
    && NamesSide(allocations, naming, b, v.environment, v.protocol, v.rightId, v.right)
  }

  /** A report of two entries of one group that overlap. */
  predicate OfRow(v: Violation, key: Key, s: seq<Entry>, left: nat, right: nat) {
    && left < right < |s| && s[left].interval.Overlaps(s[right].interval)
    && v == HostCollision(key.0, key.1, s[left].id, s[left].interval, s[right].id, s[right].interval)
  }

  lemma {:induction false} RowSays(log: Log, key: Key, s: seq<Entry>, left: nat, right: nat, v: Violation)
    requires left < |s| && right <= |s|
    ensures v in LogRow(log, key, s, left, right) <==>
      v in log || exists r: nat :: r < right && OfRow(v, key, s, left, r)
  {
    if right > left + 1 {
      RowSays(log, key, s, left, right - 1, v);
      assert v in LogRow(log, key, s, left, right) <==>
        v in LogRow(log, key, s, left, right - 1) || OfRow(v, key, s, left, right - 1);
    }
  }

  lemma {:induction false} GroupSays(log: Log, key: Key, s: seq<Entry>, rows: nat, v: Violation)
    requires rows <= |s|
    ensures v in LogGroup(log, key, s, rows) <==>
      v in log || exists l: nat, r: nat :: l < rows && OfRow(v, key, s, l, r)
  {
    if rows > 0 {
      GroupSays(log, key, s, rows - 1, v);
      RowSays(LogGroup(log, key, s, rows - 1), key, s, rows - 1, |s|, v);
    }
  }

  /** A report of one of these groups. */
  ghost predicate OfGroup(v: Violation, grouped: Groups, key: Key) {
    key in grouped && exists l: nat, r: nat :: OfRow(v, key, grouped[key], l, r)
  }

  lemma {:induction false} GroupsSay(log: Log, grouped: Groups, order: seq<Key>, count: nat, v: Violation)
    requires count <= |order| && forall k :: k in order ==> k in grouped
    ensures v in LogGroups(log, grouped, order, count) <==>
      v in log || exists i: nat :: i < count && OfGroup(v, grouped, order[i])
  {
    if count > 0 {
      GroupsSay(log, grouped, order, count - 1, v);
      var key := order[count - 1];
      GroupSays(LogGroups(log, grouped, order, count - 1), key, grouped[key], |grouped[key]|, v);
    }
  }

  lemma CollisionsSay(log: Log, grouped: Groups, sort: set<Key> -> seq<Key>, v: Violation)
    requires Enumerates(sort)
    ensures v in LogCollisions(log, grouped, sort) <==> v in log || exists key :: OfGroup(v, grouped, key)
  {
    var order := sort(grouped.Keys);
    GroupsSay(log, grouped, order, |order|, v);
    if key :| OfGroup(v, grouped, key) {
      assert key in order;
      var i: nat :| i < |order| && order[i] == key;
    }
  }

  lemma {:induction false} SelectedOne(actives: seq<Active>, key: Key, l: nat) returns (x: nat)
    requires l < |Select(actives, key)|
    ensures x < |actives| && KeyOf(actives[x]) == key && EntryOf(actives[x]) == Select(actives, key)[l]
  {
    var init := actives[..|actives| - 1];
    if l < |Select(init, key)| {
      x := SelectedOne(init, key, l);
    } else {
      x := |actives| - 1;
    }
  }

  lemma {:induction false} SelectedTwo(actives: seq<Active>, key: Key, l: nat, r: nat) returns (x: nat, y: nat)
    requires l < r < |Select(actives, key)|
    ensures x < y < |actives| && KeyOf(actives[x]) == key && KeyOf(actives[y]) == key
    ensures EntryOf(actives[x]) == Select(actives, key)[l] && EntryOf(actives[y]) == Select(actives, key)[r]
  {
    var init := actives[..|actives| - 1];
    if r < |Select(init, key)| {
      x, y := SelectedTwo(init, key, l, r);
    } else {
      x := SelectedOne(init, key, l);
      y := |actives| - 1;
    }
  }

  lemma {:induction false} OneSelected(actives: seq<Active>, x: nat) returns (l: nat)
    requires x < |actives|
    ensures var s := Select(actives, KeyOf(actives[x])); l < |s| && s[l] == EntryOf(actives[x])
  {
    if x < |actives| - 1 {
      l := OneSelected(actives[..|actives| - 1], x);
    } else {
      l := |Select(actives, KeyOf(actives[x]))| - 1;
    }
  }

  lemma {:induction false} TwoSelected(actives: seq<Active>, x: nat, y: nat) returns (l: nat, r: nat)
    requires x < y < |actives| && KeyOf(actives[x]) == KeyOf(actives[y])
    ensures var s := Select(actives, KeyOf(actives[x]));
      l < r < |s| && s[l] == EntryOf(actives[x]) && s[r] == EntryOf(actives[y])
  {
    var init := actives[..|actives| - 1];
    if y < |actives| - 1 {
      l, r := TwoSelected(init, x, y);
    } else {
      l := OneSelected(init, x);
      r := |Select(actives, KeyOf(actives[x]))| - 1;
    }
  }

  /** A report of two active bindings of one environment and protocol that overlap. */
  predicate OfActives(v: Violation, actives: seq<Active>, x: nat, y: nat) {
    && x < y < |actives| && KeyOf(actives[x]) == KeyOf(actives[y])
    && actives[x].interval.Overlaps(actives[y].interval)
    && v == HostCollision(actives[x].environment, actives[x].protocol, actives[x].id, actives[x].interval,
                          actives[y].id, actives[y].interval)
  }

  lemma GroupsOfActives(actives: seq<Active>, v: Violation)
    ensures (exists key :: OfGroup(v, GroupsOf(actives), key)) <==> exists x: nat, y: nat :: OfActives(v, actives, x, y)
  {
    if key :| OfGroup(v, GroupsOf(actives), key) {
      GroupsAreSelections(actives, key);
      var l: nat, r: nat :| OfRow(v, key, GroupsOf(actives)[key], l, r);
      var x, y := SelectedTwo(actives, key, l, r);
      assert OfActives(v, actives, x, y);
    }
    if x: nat, y: nat :| OfActives(v, actives, x, y) {
      var key := KeyOf(actives[x]);
      var l, r := TwoSelected(actives, x, y);
      GroupsAreSelections(actives, key);
      assert OfRow(v, key, GroupsOf(actives)[key], l, r);
      assert OfGroup(v, GroupsOf(actives), key);
    }
  }

  lemma {:induction false} NoCollisionSaid(log: Log, v: Violation)
    requires Collisions(log) == 0 && v.HostCollision?
    ensures v !in log
  {
    if log != [] {
      NoCollisionSaid(log[..|log| - 1], v);
    }
  }

  lemma ReportSays(registry: RegistryMapping, naming: Naming, sort: set<Key> -> seq<Key>, v: Violation)
    requires Enumerates(sort) && IsReadable(registry) && v.HostCollision?
    ensures v in Report(registry, naming, sort) <==>
      exists x: nat, y: nat :: OfActives(v, ActivesOf(registry.allocations.value, naming), x, y)
  {
    var allocations := registry.allocations.value;
    var log := if registry.versionIsOne then [] else Note([], Schema(Malformed(Version), VersionField));
    Noted([], Schema(Malformed(Version), VersionField));
    BeforeCollisionsChecked(log, allocations, naming);
    NoCollisionSaid(LogBeforeCollisions(log, allocations, naming), v);
    GroupsAreOfActives(allocations, naming);
    CollisionsSay(LogBeforeCollisions(log, allocations, naming), GroupsOf(ActivesOf(allocations, naming)), sort, v);
    GroupsOfActives(ActivesOf(allocations, naming), v);
  }

  lemma SideIsNamed(allocations: seq<AllocationMapping>, naming: Naming, at: Position, a: Active)
    requires ReadFrom(allocations, naming, at, a)
    ensures NamesSide(allocations, naming, at, a.environment, a.protocol, a.id, a.interval)
  {
  }

  lemma NamedSideIs(allocations: seq<AllocationMapping>, naming: Naming, at: Position, a: Active, environment: string,
                    protocol: string, id: string, interval: PortInterval)
    requires ReadFrom(allocations, naming, at, a)
    requires NamesSide(allocations, naming, at, environment, protocol, id, interval)
    ensures a == Active(environment, protocol, id, interval)
  {
  }

  lemma NamedSideTakes(allocations: seq<AllocationMapping>, naming: Naming, at: Position, environment: string,
                       protocol: string, id: string, interval: PortInterval)
    requires NamesSide(allocations, naming, at, environment, protocol, id, interval)
    ensures Takes(allocations, at, interval.start) && at in Origins(allocations)
  {
    TakersAreOrigins(allocations, at, interval.start);
  }

  /** The pair of bindings a collision report is about. */
  ghost predicate Accuses(allocations: seq<AllocationMapping>, naming: Naming, v: Violation, a: Position, b: Position) {
    Before(a, b) && CannotBothBeUp(allocations, a, b) && NamesPair(allocations, naming, v, a, b)
  }

  lemma ActivesAreAccused(allocations: seq<AllocationMapping>, naming: Naming, v: Violation, x: nat, y: nat)
    requires OfActives(v, ActivesOf(allocations, naming), x, y)
    ensures exists a, b :: Accuses(allocations, naming, v, a, b)
  {
    var actives, origins := ActivesOf(allocations, naming), Origins(allocations);
    OriginsAgree(allocations, naming);
    OriginsAreOrdered(allocations);
    ActivesAreValid(allocations, naming);
    OverlapsIsSharing(actives[x].interval, actives[y].interval);
    ClashesAreInTheFile(allocations, naming, origins[x], origins[y], actives[x], actives[y]);
    SideIsNamed(allocations, naming, origins[x], actives[x]);
    SideIsNamed(allocations, naming, origins[y], actives[y]);
    assert Accuses(allocations, naming, v, origins[x], origins[y]);
  }

  lemma AccusedAreActives(allocations: seq<AllocationMapping>, naming: Naming, v: Violation, a: Position, b: Position)
    requires Accuses(allocations, naming, v, a, b)
    ensures exists x: nat, y: nat :: OfActives(v, ActivesOf(allocations, naming), x, y)
  {
    var actives, origins := ActivesOf(allocations, naming), Origins(allocations);
    OriginsAgree(allocations, naming);
    OriginsAreOrdered(allocations);
    ActivesAreValid(allocations, naming);
    NamedSideTakes(allocations, naming, a, v.environment, v.protocol, v.leftId, v.left);
    NamedSideTakes(allocations, naming, b, v.environment, v.protocol, v.rightId, v.right);
    var x: nat :| x < |origins| && origins[x] == a;
    var y: nat :| y < |origins| && origins[y] == b;
    OrderedSo(origins, x, y);
    NamedSideIs(allocations, naming, a, actives[x], v.environment, v.protocol, v.leftId, v.left);
    NamedSideIs(allocations, naming, b, actives[y], v.environment, v.protocol, v.rightId, v.right);
    ClashesAreInTheFile(allocations, naming, a, b, actives[x], actives[y]);
    OverlapsIsSharing(actives[x].interval, actives[y].interval);
    assert OfActives(v, actives, x, y);
  }

  /**
   A collision is reported exactly if two bindings of the file cannot both be up, and the report names both: their
   environment and protocol, and for each its allocation and its ports, the earlier one first.
   */
  lemma ReportsNameThePairs(registry: RegistryMapping, naming: Naming, sort: set<Key> -> seq<Key>, v: Violation)
    requires Enumerates(sort) && IsReadable(registry) && v.HostCollision?
    ensures v in Report(registry, naming, sort) <==>
      exists a, b :: Accuses(registry.allocations.value, naming, v, a, b)
  {
    var allocations := registry.allocations.value;
    ReportSays(registry, naming, sort, v);
    if x: nat, y: nat :| OfActives(v, ActivesOf(allocations, naming), x, y) {
      ActivesAreAccused(allocations, naming, v, x, y);
    }
    if a, b :| Accuses(allocations, naming, v, a, b) {
      AccusedAreActives(allocations, naming, v, a, b);
    }
  }
}
