/**
 What the port verifier's verdict means: its collision reports are exactly the clashing pairs, and ports are a budget.
 */
module PortCollisions {
  import opened Wrappers
  import opened Ports

  // ---------------------------------------------------------------- steps that report no collision

  /** How many collisions a log reports. */
  function Collisions(log: Log): nat {
    if log == [] then 0 else Collisions(log[..|log| - 1]) + if log[|log| - 1].HostCollision? then 1 else 0
  }

  /** A step of the verifier that reports no collision, and reports nothing at all exactly when `clean`. */
  predicate Checked(log: Log, r: Log, clean: bool) {
    && (if clean then r == log else |log| < |r|)
    && Collisions(r) == Collisions(log)
  }

  lemma Noted(log: Log, v: Violation)
    ensures |Note(log, v)| == |log| + 1
    ensures Collisions(Note(log, v)) == Collisions(log) + if v.HostCollision? then 1 else 0
    ensures !v.HostCollision? ==> Checked(log, Note(log, v), false)
  {
    assert Note(log, v)[..|log|] == log;
  }

  lemma BothChecked(log: Log, mid: Log, r: Log, first: bool, second: bool)
    requires Checked(log, mid, first) && Checked(mid, r, second)
    ensures Checked(log, r, first && second)
  {
  }

  /** A loop reports nothing exactly when none of its steps does. */
  lemma {:induction false} StepsChecked(log: Log, step: (Log, nat) -> Log, clean: nat -> bool, count: nat)
    requires forall l, i: nat :: i < count ==> Checked(l, step(l, i), clean(i))
    ensures Checked(log, Steps(log, step, count), forall i: nat :: i < count ==> clean(i))
  {
    if count > 0 {
      StepsChecked(log, step, clean, count - 1);
    }
  }

  lemma PortChecked(log: Log, value: PortValue, field: Field, at: Place)
    ensures Checked(log, LogPort(log, value, field, at), PortOf(value).Some?)
  {
    Noted(log, Schema(Malformed(field), at));
    Noted(log, Schema(OutOfRange(field), at));
  }

  lemma RangeChecked(log: Log, start: PortValue, end: PortValue, numbered: Number -> Field, at: Place)
    ensures Checked(log, LogRange(log, start, end, numbered, at), RangeOf(start, end).Some?)
  {
    var one := LogPort(log, start, numbered(Start), at);
    var two := LogPort(one, end, numbered(End), at);
    PortChecked(log, start, numbered(Start), at);
    PortChecked(one, end, numbered(End), at);
    Noted(two, Schema(Backwards(numbered(WholeRange)), at));
  }

  lemma SingleHostIsAPort(log: Log, host: HostMapping, at: Place)
    requires host.HostMapping? && IsSingle(host.kind)
    ensures LogHostInterval(log, host, at) == LogPort(log, host.port, HostPorts(Port), at)
    ensures NumbersAreSound(host) <==> PortOf(host.port).Some?
  {
  }

  lemma CheckedAlike(log: Log, r: Log, clean: bool, s: Log, same: bool)
    requires Checked(log, r, clean) && s == r && same == clean
    ensures Checked(log, s, same)
  {
  }

  lemma SingleHostChecked(log: Log, host: HostMapping, at: Place)
    requires host.HostMapping? && IsSingle(host.kind)
    ensures Checked(log, LogHostInterval(log, host, at), NumbersAreSound(host))
  {
    SingleHostIsAPort(log, host, at);
    PortChecked(log, host.port, HostPorts(Port), at);
    CheckedAlike(log, LogPort(log, host.port, HostPorts(Port), at), PortOf(host.port).Some?,
                 LogHostInterval(log, host, at), NumbersAreSound(host));
  }

  lemma RangeHostChecked(log: Log, host: HostMapping, at: Place)
    requires host.HostMapping? && host.kind.Range?
    ensures Checked(log, LogHostInterval(log, host, at), NumbersAreSound(host))
  {
    RangeChecked(log, host.start, host.end, HOST_PORTS, at);
  }

  lemma OtherHostChecked(log: Log, host: HostMapping, at: Place)
    requires host.HostMapping? ==> !IsSingle(host.kind) && !host.kind.Range?
    ensures Checked(log, LogHostInterval(log, host, at), NumbersAreSound(host))
  {
    Noted(log, Schema(Malformed(HostType), at));
  }

  lemma HostIntervalChecked(log: Log, host: HostMapping, at: Place)
    ensures Checked(log, LogHostInterval(log, host, at), NumbersAreSound(host))
  {
    if host.HostMapping? && IsSingle(host.kind) {
      SingleHostChecked(log, host, at);
    } else if host.HostMapping? && host.kind.Range? {
      RangeHostChecked(log, host, at);
    } else {
      OtherHostChecked(log, host, at);
    }
  }

  lemma HostChecked(log: Log, host: HostMapping, at: Place)
    ensures Checked(log, LogHost(log, host, at), HostIsSound(host))
  {
    Noted(log, Schema(Malformed(Host), at));
    Noted(log, Schema(Malformed(HostName), at));
    HostIntervalChecked(log, host, at);
  }

  lemma ContainerChecked(log: Log, container: ContainerMapping, at: Place)
    ensures Checked(log, LogContainer(log, container, at), ContainerIsSound(container))
  {
    match container
    case BadContainer => Noted(log, Schema(Malformed(Container), at));
    case ContainerMapping(kind, port, first, last) =>
      if kind.UnknownContainer? && port.Some? {
        PortChecked(log, port.value, ContainerPorts(Port), at);
      } else if kind.RangeContainer? {
        RangeChecked(log, first, last, CONTAINER_PORTS, at);
      }
    case _ =>
  }

  lemma BindingChecked(log: Log, binding: BindingMapping, at: Place)
    ensures Checked(log, LogBinding(log, binding, at), BindingIsSound(binding))
  {
    Noted(log, Schema(Malformed(Binding), at));
    Noted(log, Schema(Malformed(Environment), at));
    if binding.BindingMapping? {
      var one := if NonBlank(binding.environment) then log else Note(log, Schema(Malformed(Environment), at));
      HostChecked(one, binding.host, at);
      ContainerChecked(LogHost(one, binding.host, at), binding.container, at);
    }
  }

  lemma BindingsChecked(log: Log, bindings: seq<BindingMapping>, index: nat)
    ensures Checked(log, LogBindings(log, bindings, index), forall j :: 0 <= j < |bindings| ==>
          BindingIsSound(bindings[j]))
  {
    var step, clean := BindingStep(bindings, index), (j: nat) => j < |bindings| && BindingIsSound(bindings[j]);
    forall l, j: nat | j < |bindings| ensures Checked(l, step(l, j), clean(j)) {
      BindingChecked(l, bindings[j], BindingAt(index, j));
    }
    StepsChecked(log, step, clean, |bindings|);
    assert forall j: nat :: j < |bindings| ==> clean(j) == BindingIsSound(bindings[j]);
  }

  lemma HeaderChecked(log: Log, id: IdValue, protocol: ProtocolValue, kind: BindingKind, at: Place)
    ensures Checked(log, LogHeader(log, id, protocol, kind, at), HeaderIsSound(id, protocol, kind))
  {
    var a := if id.TextId? && NonBlank(Some(id.text)) then log else Note(log, Schema(Malformed(Id), at));
    var b := if protocol.Tcp? || protocol.Udp? then a else Note(a, Schema(Malformed(Protocol), at));
    Noted(log, Schema(Malformed(Id), at));
    Noted(a, Schema(Malformed(Protocol), at));
    Noted(b, Schema(Malformed(BindingKindField), at));
  }

  lemma AllocationChecked(log: Log, a: AllocationMapping, index: nat)
    ensures Checked(log, LogAllocation(log, a, index), AllocationIsSound(a))
  {
    Noted(log, Schema(Malformed(Allocation), AllocationAt(index)));
    if a.AllocationMapping? {
      var headed := LogHeader(log, a.id, a.protocol, a.bindingKind, AllocationAt(index));
      HeaderChecked(log, a.id, a.protocol, a.bindingKind, AllocationAt(index));
      Noted(headed, Schema(Malformed(Bindings), AllocationAt(index)));
      if a.bindings.Some? {
        BindingsChecked(headed, a.bindings.value, index);
      }
    }
  }

  lemma AllocationsChecked(log: Log, allocations: seq<AllocationMapping>)
    ensures Checked(log, LogAllocations(log, allocations), forall i :: 0 <= i < |allocations| ==>
          AllocationIsSound(allocations[i]))
  {
    var step, clean := AllocationStep(allocations), (i: nat) => i < |allocations| && AllocationIsSound(allocations[i]);
    forall l, i: nat | i < |allocations| ensures Checked(l, step(l, i), clean(i)) {
      AllocationChecked(l, allocations[i], i);
    }
    StepsChecked(log, step, clean, |allocations|);
    assert forall i: nat :: i < |allocations| ==> clean(i) == AllocationIsSound(allocations[i]);
  }

  lemma InternalChecked(log: Log, a: AllocationMapping, index: nat, naming: Naming)
    ensures Checked(log, LogInternal(log, a, index, naming), StaysInternal(a))
  {
    if IsInternal(a) {
      var bindings, owner := BindingsOf(a), IdOf(a.id, naming.slot(index));
      var step, clean := PublishStep(bindings, owner), (j: nat) => j < |bindings| && !Publishes(bindings[j]);
      forall l, j: nat | j < |bindings| ensures Checked(l, step(l, j), clean(j)) {
        if Publishes(bindings[j]) {
          Noted(l, InternalPublish(owner, bindings[j].host.kind));
        }
      }
      StepsChecked(log, step, clean, |bindings|);
      assert forall j: nat :: j < |bindings| ==> clean(j) == !Publishes(bindings[j]);
    }
  }

  lemma InternalsChecked(log: Log, allocations: seq<AllocationMapping>, naming: Naming)
    ensures Checked(log, LogInternals(log, allocations, naming), forall i :: 0 <= i < |allocations| ==>
          StaysInternal(allocations[i]))
  {
    var step, clean := InternalStep(allocations, naming), (i: nat) => i < |allocations|
      && StaysInternal(allocations[i]);
    forall l, i: nat | i < |allocations| ensures Checked(l, step(l, i), clean(i)) {
      InternalChecked(l, allocations[i], i, naming);
    }
    StepsChecked(log, step, clean, |allocations|);
    assert forall i: nat :: i < |allocations| ==> clean(i) == StaysInternal(allocations[i]);
  }

  lemma LivesChecked(log: Log, bindings: seq<BindingMapping>, index: nat)
    ensures Checked(log, LogLives(log, bindings, index), forall j :: 0 <= j < |bindings| ==> LiveIsSound(bindings[j]))
  {
    var step, clean := LiveStep(bindings, index), (j: nat) => j < |bindings| && LiveIsSound(bindings[j]);
    forall l, j: nat | j < |bindings| ensures Checked(l, step(l, j), clean(j)) {
      if IsLive(bindings[j]) {
        HostIntervalChecked(l, bindings[j].host, BindingAt(index, j));
      }
    }
    StepsChecked(log, step, clean, |bindings|);
    assert forall j: nat :: j < |bindings| ==> clean(j) == LiveIsSound(bindings[j]);
  }

  // ---------------------------------------------------------------- what passes

  /**
   Every live binding of an allocation names its host ports; an empty host passes the schema check but not this one.
   */
  predicate LivesAreSound(a: AllocationMapping) {
    forall j :: 0 <= j < |BindingsOf(a)| ==> LiveIsSound(BindingsOf(a)[j])
  }

  predicate IdAt(allocations: seq<AllocationMapping>, i: nat, naming: Naming, id: string) {
    i < |allocations| && HasTextId(allocations[i]) && IdOf(allocations[i].id, naming.placeholder(i)) == id
  }

  ghost predicate IdsAreDistinct(allocations: seq<AllocationMapping>, count: nat, naming: Naming) {
    forall i: nat, j: nat, id :: i < j < count && IdAt(allocations, i, naming, id) ==> !IdAt(allocations, j, naming, id)
  }

  lemma {:induction false} IdsToAre(allocations: seq<AllocationMapping>, count: nat, naming: Naming, id: string)
    requires count <= |allocations|
    ensures id in IdsTo(allocations, count, naming) <==> exists i: nat :: i < count && IdAt(allocations, i, naming, id)
  {
    if count > 0 {
      IdsToAre(allocations, count - 1, naming, id);
      assert id in OwnId(allocations[count - 1], count - 1, naming) <==> IdAt(allocations, count - 1, naming, id);
    }
  }

  lemma NextIdIsNew(allocations: seq<AllocationMapping>, count: nat, naming: Naming)
    requires 0 < count <= |allocations|
    ensures IdsAreDistinct(allocations, count, naming)
       <==> IdsAreDistinct(allocations, count - 1, naming)
            && IdIsNew(allocations[count - 1], count - 1, IdsTo(allocations, count - 1, naming), naming)
  {
    var last := allocations[count - 1];
    if HasTextId(last) {
      var own := IdOf(last.id, naming.placeholder(count - 1));
      IdsToAre(allocations, count - 1, naming, own);
      assert IdAt(allocations, count - 1, naming, own);
    }
  }

  lemma CollectedChecked(log: Log, a: AllocationMapping, index: nat, seen: set<string>, naming: Naming)
    ensures Checked(log, LogCollected(log, a, index, seen, naming),
                    AllocationIsSound(a) && IdIsNew(a, index, seen, naming) && LivesAreSound(a))
  {
    var one := LogAllocation(log, a, index);
    var two := LogId(one, a, index, seen, naming);
    AllocationChecked(log, a, index);
    Noted(one, DuplicateId(IdOf(if a.AllocationMapping? then a.id else NoId, naming.placeholder(index))));
    LivesChecked(two, BindingsOf(a), index);
    var first, second := AllocationIsSound(a), IdIsNew(a, index, seen, naming);
    BothChecked(log, one, two, first, second);
    BothChecked(log, two, LogCollected(log, a, index, seen, naming), first && second, LivesAreSound(a));
  }

  predicate CollectedIsClean(allocations: seq<AllocationMapping>, i: nat, naming: Naming)
    requires i < |allocations|
  {
    var a := allocations[i];
    AllocationIsSound(a) && IdIsNew(a, i, IdsTo(allocations, i, naming), naming) && LivesAreSound(a)
  }

  lemma {:induction false} NewIdsAreDistinct(allocations: seq<AllocationMapping>, count: nat, naming: Naming)
    requires count <= |allocations|
    ensures IdsAreDistinct(allocations, count, naming)
       <==> forall i: nat :: i < count ==> IdIsNew(allocations[i], i, IdsTo(allocations, i, naming), naming)
  {
    if count > 0 {
      NewIdsAreDistinct(allocations, count - 1, naming);
      NextIdIsNew(allocations, count, naming);
    }
  }

  lemma CollectorStepsChecked(log: Log, allocations: seq<AllocationMapping>, naming: Naming)
    ensures Checked(log, LogCollector(log, allocations, naming),
                    forall i: nat :: i < |allocations| ==> CollectedIsClean(allocations, i, naming))
  {
    var step, clean := CollectorStep(allocations, naming), (i: nat) => i < |allocations|
      && CollectedIsClean(allocations, i, naming);
    forall l, i: nat | i < |allocations| ensures Checked(l, step(l, i), clean(i)) {
      CollectedChecked(l, allocations[i], i, IdsTo(allocations, i, naming), naming);
    }
    StepsChecked(log, step, clean, |allocations|);
    assert forall i: nat :: i < |allocations| ==> clean(i) == CollectedIsClean(allocations, i, naming);
  }

  lemma CleanCollection(allocations: seq<AllocationMapping>, naming: Naming)
    ensures (forall i: nat :: i < |allocations| ==> CollectedIsClean(allocations, i, naming))
       <==> (forall i :: 0 <= i < |allocations| ==> AllocationIsSound(allocations[i]) && LivesAreSound(allocations[i]))
            && IdsAreDistinct(allocations, |allocations|, naming)
  {
    NewIdsAreDistinct(allocations, |allocations|, naming);
    if forall i: nat :: i < |allocations| ==> CollectedIsClean(allocations, i, naming) {
      forall i: nat | i < |allocations|
        ensures AllocationIsSound(allocations[i]) && LivesAreSound(allocations[i])
             && IdIsNew(allocations[i], i, IdsTo(allocations, i, naming), naming)
      {
        assert CollectedIsClean(allocations, i, naming);
      }
    }
  }

  lemma CollectorChecked(log: Log, allocations: seq<AllocationMapping>, naming: Naming)
    ensures Checked(log, LogCollector(log, allocations, naming),
                    (forall i :: 0 <= i < |allocations| ==>
                          AllocationIsSound(allocations[i]) && LivesAreSound(allocations[i]))
                    && IdsAreDistinct(allocations, |allocations|, naming))
  {
    CollectorStepsChecked(log, allocations, naming);
    CleanCollection(allocations, naming);
  }

  predicate AllocationPasses(a: AllocationMapping) {
    AllocationIsSound(a) && LivesAreSound(a) && StaysInternal(a)
  }

  ghost predicate AllocationsPass(allocations: seq<AllocationMapping>, naming: Naming) {
    && (forall i :: 0 <= i < |allocations| ==> AllocationPasses(allocations[i]))
    && IdsAreDistinct(allocations, |allocations|, naming)
  }

  lemma BeforeCollisionsChecked(log: Log, allocations: seq<AllocationMapping>, naming: Naming)
    ensures Checked(log, LogBeforeCollisions(log, allocations, naming), AllocationsPass(allocations, naming))
  {
    var n := |allocations|;
    var one := LogAllocations(log, allocations);
    var two := LogInternals(one, allocations, naming);
    AllocationsChecked(log, allocations);
    InternalsChecked(one, allocations, naming);
    CollectorChecked(two, allocations, naming);
    if AllocationsPass(allocations, naming) {
      assert forall i :: 0 <= i < n ==> AllocationPasses(allocations[i]);
    }
  }

  // ---------------------------------------------------------------- counting pairs

  ghost predicate SharesPort(a: PortInterval, b: PortInterval) {
    exists port :: a.Holds(port) && b.Holds(port)
  }

  lemma OverlapsIsSharing(a: PortInterval, b: PortInterval)
    requires a.Valid() && b.Valid()
    ensures a.Overlaps(b) <==> SharesPort(a, b)
  {
    if a.Overlaps(b) {
      var port := if a.start <= b.start then b.start else a.start;
      assert a.Holds(port) && b.Holds(port);
    }
  }

  /** Two active bindings that cannot both be up: same environment and protocol, and a port in common. */
  ghost predicate Clash(a: Active, b: Active) {
    a.environment == b.environment && a.protocol == b.protocol && SharesPort(a.interval, b.interval)
  }

  /** The unordered clashing pairs among the active bindings. */
  ghost function Clashes(actives: seq<Active>): set<(nat, nat)> {
    set i: nat, j: nat | i < j < |actives| && Clash(actives[i], actives[j]) :: (i, j)
  }

  predicate AllValid(actives: seq<Active>) {
    forall a :: a in actives ==> a.interval.Valid()
  }

  function Hit(left: Entry, right: Entry): nat {
    if left.interval.Overlaps(right.interval) then 1 else 0
  }

  function Hits(s: seq<Entry>, x: Entry): nat {
    if s == [] then 0 else Hits(s[..|s| - 1], x) + Hit(s[|s| - 1], x)
  }

  /** The overlapping pairs of one group. */
  function Pairs(s: seq<Entry>): nat {
    if s == [] then 0 else Pairs(s[..|s| - 1]) + Hits(s[..|s| - 1], s[|s| - 1])
  }

  // ---------------------------------------------------------------- the pair loop counts them

  /** The collisions of row `left`, for the right indices below `right`. */
  function RowCount(s: seq<Entry>, left: nat, right: nat): nat
    requires left < |s| && right <= |s|
  {
    if right <= left + 1 then 0 else RowCount(s, left, right - 1) + Hit(s[left], s[right - 1])
  }

  function RowsCount(s: seq<Entry>, rows: nat): nat
    requires rows <= |s|
  {
    if rows == 0 then 0 else RowsCount(s, rows - 1) + RowCount(s, rows - 1, |s|)
  }

  lemma {:induction false} RowIsCounted(log: Log, key: Key, s: seq<Entry>, left: nat, right: nat)
    requires left < |s| && right <= |s|
    ensures |LogRow(log, key, s, left, right)| == |log| + RowCount(s, left, right)
    ensures Collisions(LogRow(log, key, s, left, right)) == Collisions(log) + RowCount(s, left, right)
  {
    if right > left + 1 {
      var before, a, b := LogRow(log, key, s, left, right - 1), s[left], s[right - 1];
      RowIsCounted(log, key, s, left, right - 1);
      Noted(before, HostCollision(key.0, key.1, a.id, a.interval, b.id, b.interval));
    }
  }

  lemma {:induction false} RowsAreCounted(log: Log, key: Key, s: seq<Entry>, rows: nat)
    requires rows <= |s|
    ensures |LogGroup(log, key, s, rows)| == |log| + RowsCount(s, rows)
    ensures Collisions(LogGroup(log, key, s, rows)) == Collisions(log) + RowsCount(s, rows)
  {
    if rows > 0 {
      RowsAreCounted(log, key, s, rows - 1);
      RowIsCounted(LogGroup(log, key, s, rows - 1), key, s, rows - 1, |s|);
    }
  }

  lemma {:induction false} RowOfPrefix(s: seq<Entry>, x: Entry, left: nat, right: nat)
    requires left < |s| && right <= |s|
    ensures RowCount(s + [x], left, right) == RowCount(s, left, right)
  {
    if right > left + 1 {
      RowOfPrefix(s, x, left, right - 1);
    }
  }

  /** One more entry adds one more comparison to every row. */
  lemma {:induction false} RowsGrow(s: seq<Entry>, x: Entry, rows: nat)
    requires rows <= |s|
    ensures RowsCount(s + [x], rows) == RowsCount(s, rows) + Hits(s[..rows], x)
  {
    if rows > 0 {
      RowsGrow(s, x, rows - 1);
      RowOfPrefix(s, x, rows - 1, |s|);
      assert s[..rows][..rows - 1] == s[..rows - 1];
    }
  }

  /** The row-by-row count of the pair loop is the count of pairs. */
  lemma {:induction false} RowsCountPairs(s: seq<Entry>)
    ensures RowsCount(s, |s|) == Pairs(s)
  {
    if s != [] {
      var init, x := s[..|s| - 1], s[|s| - 1];
      assert s == init + [x];
      RowsCountPairs(init);
      RowsGrow(init, x, |init|);
      assert init[..|init|] == init;
      assert RowCount(s, |init|, |s|) == 0;
    }
  }

  // ---------------------------------------------------------------- groups

  /** The entries of one environment and protocol, in order. */
  function Select(actives: seq<Active>, key: Key): seq<Entry> {
    if actives == [] then []
    else Select(actives[..|actives| - 1], key) + if KeyOf(actives[|actives| - 1]) == key then
      [EntryOf(actives[|actives| - 1])] else []
  }

  lemma {:induction false} GroupsAreSelections(actives: seq<Active>, key: Key)
    ensures key in GroupsOf(actives) <==> Select(actives, key) != []
    ensures key in GroupsOf(actives) ==> GroupsOf(actives)[key] == Select(actives, key)
  {
    if actives != [] {
      GroupsAreSelections(actives[..|actives| - 1], key);
    }
  }

  /** The overlapping pairs of the groups listed in `order`. */
  function PairsIn(actives: seq<Active>, order: seq<Key>): nat {
    if order == [] then 0 else PairsIn(actives, order[..|order| - 1]) + Pairs(Select(actives, order[|order| - 1]))
  }

  predicate NoRepeats(order: seq<Key>) {
    forall i, j :: 0 <= i < j < |order| ==> order[i] != order[j]
  }

  lemma {:induction false} OtherGroupsStay(actives: seq<Active>, a: Active, order: seq<Key>)
    requires KeyOf(a) !in order
    ensures PairsIn(actives + [a], order) == PairsIn(actives, order)
  {
    if order != [] {
      OtherGroupsStay(actives, a, order[..|order| - 1]);
      assert (actives + [a])[..|actives|] == actives;
      assert Select(actives, order[|order| - 1]) + [] == Select(actives, order[|order| - 1]);
    }
  }

  lemma {:induction false} OneGroupGrows(actives: seq<Active>, a: Active, order: seq<Key>)
    requires KeyOf(a) in order && NoRepeats(order)
    ensures PairsIn(actives + [a], order) == PairsIn(actives, order) + Hits(Select(actives, KeyOf(a)), EntryOf(a))
  {
    var init, key := order[..|order| - 1], order[|order| - 1];
    assert order == init + [key];
    assert (actives + [a])[..|actives|] == actives;
    var s := Select(actives, key);
    if key == KeyOf(a) {
      OtherGroupsStay(actives, a, init);
      assert Select(actives + [a], key) == s + [EntryOf(a)];
      assert (s + [EntryOf(a)])[..|s|] == s;
    } else {
      OneGroupGrows(actives, a, init);
      assert s + [] == s;
    }
  }

  // ---------------------------------------------------------------- the set of clashing pairs grows the same way

  /** The pairs one more binding adds. */
  ghost function NewPairs(actives: seq<Active>, a: Active, count: nat): set<(nat, nat)>
    requires count <= |actives|
  {
    set i: nat | i < count && Clash(actives[i], a) :: (i, |actives|)
  }

  lemma OneMoreNewPair(actives: seq<Active>, a: Active, count: nat)
    requires 0 < count <= |actives|
    ensures |NewPairs(actives, a, count)| == |NewPairs(actives, a, count - 1)| + if Clash(actives[count - 1], a) then 1
      else 0
  {
    var before := NewPairs(actives, a, count - 1);
    if Clash(actives[count - 1], a) {
      assert NewPairs(actives, a, count) == before + {(count - 1, |actives|)};
    } else {
      assert NewPairs(actives, a, count) == before;
    }
  }

  lemma {:induction false} NewPairsAreHits(actives: seq<Active>, a: Active, count: nat)
    requires count <= |actives| && AllValid(actives) && a.interval.Valid()
    ensures |NewPairs(actives, a, count)| == Hits(Select(actives[..count], KeyOf(a)), EntryOf(a))
  {
    if count > 0 {
      var b, s := actives[count - 1], Select(actives[..count - 1], KeyOf(a));
      NewPairsAreHits(actives, a, count - 1);
      OneMoreNewPair(actives, a, count);
      assert actives[..count][..count - 1] == actives[..count - 1];
      OverlapsIsSharing(b.interval, a.interval);
      if KeyOf(b) == KeyOf(a) {
        assert (s + [EntryOf(b)])[..|s|] == s;
      } else {
        assert s + [] == s;
      }
    } else {
      assert NewPairs(actives, a, 0) == {};
    }
  }

  lemma ClashesGrow(actives: seq<Active>, a: Active)
    requires AllValid(actives) && a.interval.Valid()
    ensures |Clashes(actives + [a])| == |Clashes(actives)| + Hits(Select(actives, KeyOf(a)), EntryOf(a))
  {
    var more, added := actives + [a], NewPairs(actives, a, |actives|);
    NewPairsAreHits(actives, a, |actives|);
    assert actives[..|actives|] == actives;
    forall i: nat, j: nat ensures (i, j) in Clashes(more) <==> (i, j) in Clashes(actives) || (i, j) in added {
    }
    assert Clashes(more) == Clashes(actives) + added;
    assert Clashes(actives) !! added;
  }

  lemma {:induction false} PairsAreClashes(actives: seq<Active>, order: seq<Key>)
    requires AllValid(actives) && NoRepeats(order) && forall a :: a in actives ==> KeyOf(a) in order
    ensures PairsIn(actives, order) == |Clashes(actives)|
  {
    if actives == [] {
      EmptyHasNoPairs(order);
      assert Clashes([]) == {};
    } else {
      var init, a := actives[..|actives| - 1], actives[|actives| - 1];
      assert actives == init + [a];
      PairsAreClashes(init, order);
      OneGroupGrows(init, a, order);
      ClashesGrow(init, a);
    }
  }

  lemma {:induction false} EmptyHasNoPairs(order: seq<Key>)
    ensures PairsIn([], order) == 0
  {
    if order != [] {
      EmptyHasNoPairs(order[..|order| - 1]);
    }
  }

  lemma GroupIsCounted(log: Log, actives: seq<Active>, key: Key)
    requires key in GroupsOf(actives)
    ensures var s := GroupsOf(actives)[key]; var r := LogGroup(log, key, s, |s|);
      |r| == |log| + Pairs(Select(actives, key)) && Collisions(r) == Collisions(log) + Pairs(Select(actives, key))
  {
    var s := GroupsOf(actives)[key];
    GroupsAreSelections(actives, key);
    RowsAreCounted(log, key, s, |s|);
    RowsCountPairs(s);
  }

  lemma {:induction false} GroupsAreCounted(log: Log, actives: seq<Active>, order: seq<Key>, count: nat)
    requires count <= |order| && forall k :: k in order ==> k in GroupsOf(actives)
    ensures |LogGroups(log, GroupsOf(actives), order, count)| == |log| + PairsIn(actives, order[..count])
    ensures Collisions(LogGroups(log, GroupsOf(actives), order, count)) ==
      Collisions(log) + PairsIn(actives, order[..count])
  {
    if count > 0 {
      GroupsAreCounted(log, actives, order, count - 1);
      GroupIsCounted(LogGroups(log, GroupsOf(actives), order, count - 1), actives, order[count - 1]);
      assert order[..count][..count - 1] == order[..count - 1];
    }
  }

  lemma CollisionsAreClashes(log: Log, actives: seq<Active>, sort: set<Key> -> seq<Key>)
    requires Enumerates(sort) && AllValid(actives)
    ensures |LogCollisions(log, GroupsOf(actives), sort)| == |log| + |Clashes(actives)|
    ensures Collisions(LogCollisions(log, GroupsOf(actives), sort)) == Collisions(log) + |Clashes(actives)|
  {
    var order := sort(GroupsOf(actives).Keys);
    forall a | a in actives ensures KeyOf(a) in order {
      SelectedIsThere(actives, a);
      GroupsAreSelections(actives, KeyOf(a));
    }
    GroupsAreCounted(log, actives, order, |order|);
    assert order[..|order|] == order;
    PairsAreClashes(actives, order);
  }

  lemma {:induction false} SelectedIsThere(actives: seq<Active>, a: Active)
    requires a in actives
    ensures EntryOf(a) in Select(actives, KeyOf(a))
  {
    var init := actives[..|actives| - 1];
    if a != actives[|actives| - 1] {
      assert actives == init + [actives[|actives| - 1]];
      SelectedIsThere(init, a);
    }
  }

  // ---------------------------------------------------------------- the verdict

  lemma {:induction false} FlatIsValid(part: nat -> seq<Active>, count: nat)
    requires forall i: nat :: i < count ==> AllValid(part(i))
    ensures AllValid(Flat(part, count))
  {
    if count > 0 {
      FlatIsValid(part, count - 1);
    }
  }

  lemma ActivesAreValid(allocations: seq<AllocationMapping>, naming: Naming)
    ensures AllValid(ActivesOf(allocations, naming))
  {
    var part := AllocationPart(allocations, naming);
    forall i: nat | i < |allocations| ensures AllValid(part(i)) {
      var a := allocations[i];
      if a.AllocationMapping? {
        FlatIsValid(BindingPart(BindingsOf(a), ProtocolOf(a.protocol), IdOf(a.id, naming.placeholder(i))),
                    |BindingsOf(a)|);
      }
    }
    FlatIsValid(part, |allocations|);
  }

  ghost predicate IsReadable(registry: RegistryMapping) {
    registry.RegistryMapping? && registry.allocations.Some? && registry.allocations.value != []
  }

  lemma ReportIsCounted(registry: RegistryMapping, naming: Naming, sort: set<Key> -> seq<Key>)
    requires Enumerates(sort) && IsReadable(registry)
    ensures Collisions(Report(registry, naming, sort)) == |Clashes(ActivesOf(registry.allocations.value, naming))|
    ensures Report(registry, naming, sort) == [] <==>
      registry.versionIsOne && AllocationsPass(registry.allocations.value, naming)
      && |Clashes(ActivesOf(registry.allocations.value, naming))| == 0
  {
    var allocations := registry.allocations.value;
    var log := if registry.versionIsOne then [] else Note([], Schema(Malformed(Version), VersionField));
    Noted([], Schema(Malformed(Version), VersionField));
    BeforeCollisionsChecked(log, allocations, naming);
    GroupsAreOfActives(allocations, naming);
    ActivesAreValid(allocations, naming);
    CollisionsAreClashes(LogBeforeCollisions(log, allocations, naming), ActivesOf(allocations, naming), sort);
  }

  /**
   Exactness of the collision check, for every registry with a list of allocations, whatever else is wrong with it: the
   number of collision reports is the number of unordered pairs of active host bindings in one environment and protocol
   that share a port.
   */
  lemma ReportsAreExactlyTheClashes(registry: RegistryMapping, naming: Naming, sort: set<Key> -> seq<Key>)
    requires Enumerates(sort) && IsReadable(registry)
    ensures Collisions(Report(registry, naming, sort)) == |Clashes(ActivesOf(registry.allocations.value, naming))|
  {
    ReportIsCounted(registry, naming, sort);
  }

  /**
   A registry passes exactly when it is version 1, every allocation is sound, ids are distinct and no two bindings
   clash.
   */
  lemma VerdictIsExact(registry: RegistryMapping, naming: Naming, sort: set<Key> -> seq<Key>)
    requires Enumerates(sort)
    ensures Report(registry, naming, sort) == [] <==>
      IsReadable(registry) && registry.versionIsOne && AllocationsPass(registry.allocations.value, naming)
      && var actives := ActivesOf(registry.allocations.value, naming);
         forall i, j :: 0 <= i < j < |actives| ==> !Clash(actives[i], actives[j])
  {
    if IsReadable(registry) {
      ReportIsCounted(registry, naming, sort);
      var actives := ActivesOf(registry.allocations.value, naming);
      if |Clashes(actives)| == 0 {
        forall i, j | 0 <= i < j < |actives| ensures !Clash(actives[i], actives[j]) {
          assert (i, j) !in Clashes(actives);
        }
      } else {
        var pair :| pair in Clashes(actives);
        assert Clash(actives[pair.0], actives[pair.1]);
      }
    }
  }

  // ---------------------------------------------------------------- the port budget

  function PortsOf(interval: PortInterval): set<int> {
    set port | interval.start <= port <= interval.end && interval.Holds(port)
  }

  function Size(interval: PortInterval): int {
    interval.end - interval.start + 1
  }

  lemma {:induction false} PortsAreCounted(start: int, end: int)
    requires start <= end + 1
    ensures |PortsOf(PortInterval(start, end))| == end - start + 1
    decreases end - start + 1
  {
    if start <= end {
      PortsAreCounted(start, end - 1);
      assert PortsOf(PortInterval(start, end)) == PortsOf(PortInterval(start, end - 1)) + {end};
    } else {
      assert PortsOf(PortInterval(start, end)) == {};
    }
  }

  /** The ports one environment and protocol has handed out, and their total size. */
  function PortsTaken(actives: seq<Active>, key: Key): set<int> {
    if actives == [] then {}
    else
      var a := actives[|actives| - 1];
      PortsTaken(actives[..|actives| - 1], key) + if KeyOf(a) == key then PortsOf(a.interval) else {}
  }

  function TotalSize(actives: seq<Active>, key: Key): int {
    if actives == [] then 0
    else
      var a := actives[|actives| - 1];
      TotalSize(actives[..|actives| - 1], key) + if KeyOf(a) == key then Size(a.interval) else 0
  }

  lemma {:induction false} TakenByWhom(actives: seq<Active>, key: Key, port: int)
    requires port in PortsTaken(actives, key)
    ensures exists i :: 0 <= i < |actives| && KeyOf(actives[i]) == key && actives[i].interval.Holds(port)
  {
    var last := |actives| - 1;
    if !(KeyOf(actives[last]) == key && actives[last].interval.Holds(port)) {
      TakenByWhom(actives[..last], key, port);
      var i :| 0 <= i < last && KeyOf(actives[..last][i]) == key && actives[..last][i].interval.Holds(port);
      assert KeyOf(actives[i]) == key && actives[i].interval.Holds(port);
    }
  }

  lemma NotTakenYet(actives: seq<Active>, a: Active)
    requires forall i :: 0 <= i < |actives| ==> !Clash(actives[i], a)
    ensures PortsTaken(actives, KeyOf(a)) !! PortsOf(a.interval)
  {
    forall port | port in PortsTaken(actives, KeyOf(a)) ensures port !in PortsOf(a.interval) {
      TakenByWhom(actives, KeyOf(a), port);
      var i :| 0 <= i < |actives| && KeyOf(actives[i]) == KeyOf(a) && actives[i].interval.Holds(port);
      assert !Clash(actives[i], a);
    }
  }

  /** Without clashes no port is handed out twice, so sizes add up to the number of ports handed out. */
  lemma {:induction false} SizesAddUp(actives: seq<Active>, key: Key)
    requires AllValid(actives)
    requires forall i, j :: 0 <= i < j < |actives| ==> !Clash(actives[i], actives[j])
    ensures TotalSize(actives, key) == |PortsTaken(actives, key)|
    ensures PortsTaken(actives, key) <= PortsOf(PortInterval(1, MAX_PORT))
  {
    if actives != [] {
      var last := |actives| - 1;
      var init, a := actives[..last], actives[last];
      SizesAddUp(init, key);
      if KeyOf(a) == key {
        PortsAreCounted(a.interval.start, a.interval.end);
        assert forall i :: 0 <= i < last ==> init[i] == actives[i] && !Clash(actives[i], a);
        NotTakenYet(init, a);
      }
    }
  }

  lemma SubsetIsSmaller(a: set<int>, b: set<int>)
    requires a <= b
    ensures |a| <= |b|
  {
    assert b == a + (b - a);
  }

  /** In a passing registry the active intervals of one environment and protocol fit the port space together. */
  lemma PortBudget(registry: RegistryMapping, naming: Naming, sort: set<Key> -> seq<Key>, key: Key)
    requires Enumerates(sort) && Report(registry, naming, sort) == []
    ensures IsReadable(registry) && TotalSize(ActivesOf(registry.allocations.value, naming), key) <= MAX_PORT
  {
    VerdictIsExact(registry, naming, sort);
    var actives := ActivesOf(registry.allocations.value, naming);
    ActivesAreValid(registry.allocations.value, naming);
    SizesAddUp(actives, key);
    SubsetIsSmaller(PortsTaken(actives, key), PortsOf(PortInterval(1, MAX_PORT)));
    PortsAreCounted(1, MAX_PORT);
  }
}
