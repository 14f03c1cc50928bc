/** Convergence of redelivery, and the stores on which nothing converges any more. */
module InboxProgress {
  import opened Wrappers
  import opened Json
  import opened Messaging
  import opened AuditTypes
  import opened InboxSpec
  import opened InboxRuns

  // ---------------------------------------------------------------- bounded convergence

  /** How many injected failures are waiting to fire. */
  function Weight(h: Hooks): nat {
    (if h.failProjection then 1 else 0) + (if h.poisonProjection.Some? then 1 else 0)
    + (if h.failQuarantine then 1 else 0) + (if h.crashBeforeAck then 1 else 0)
  }

  function Injected(evs: seq<Event>): nat {
    if evs == [] then 0 else Injected(evs[..|evs| - 1]) + Weight(evs[|evs| - 1].armed)
  }

  lemma ArmingAdds(h: Hooks, a: Hooks)
    ensures Weight(Arm(h, a)) <= Weight(h) + Weight(a)
  {
  }

  /** Only projecting waits for a lease; a rejection is recorded whoever holds the row. */
  predicate Unleased(row: Option<InboxRow>, now: Instant, w: Work) {
    w.Apply? ==> LeaseOver(row, now)
  }

  function RoomOf(s: Settings, st: State): nat {
    Room(s.out, st.observations)
  }

  /** The delivery can be read, and its transaction can begin on this store. */
  predicate CanBegin(s: Settings, st: State, w: Work) {
    !w.Unhandled? && Depth(w) < RoomOf(s, st)
  }

  /** A decision that lets the broker forget the message or has used up an injected failure. */
  ghost predicate Progress(hooks: Hooks, plan: Plan) {
    && !plan.Raise? && plan.hooks.crashBeforeAck == hooks.crashBeforeAck && Weight(plan.hooks) <= Weight(hooks)
    && (Weight(plan.hooks) < Weight(hooks) || (!plan.Stall? && plan.outcome.action == Ack))
  }

  lemma QuarantineProgresses(s: Settings, row: Option<InboxRow>, hooks: Hooks, d: Delivery, now: Instant, h: Header,
                             code: string, detail: string, rolledBack: bool)
    ensures Progress(hooks, QuarantinePlan(s, row, hooks, d, now, h, code, detail, rolledBack))
  {
  }

  lemma ProjectProgresses(s: Settings, row: Option<InboxRow>, room: nat, hooks: Hooks, d: Delivery, now: Instant,
                          m: Message, base: InboxRow, known: bool, reason: string)
    ensures Progress(hooks, ProjectPlan(s, row, room, hooks, d, now, m, base, known, reason))
  {
    if hooks.poisonProjection.Some? {
      var f := hooks.poisonProjection.value;
      QuarantineProgresses(s, row, hooks.(poisonProjection := None), d, now, MessageHeader(m), f.code, f.detail, true);
    }
  }

  lemma ApplyProgresses(s: Settings, row: Option<InboxRow>, known: bool, room: nat, hooks: Hooks, d: Delivery,
                        now: Instant, m: Message)
    requires LeaseOver(row, now)
    ensures Progress(hooks, ApplyPlan(s, row, known, room, hooks, d, now, m))
  {
    if row.None? {
      ProjectProgresses(s, row, room, hooks, d, now, m, FreshRow(s, MessageHeader(m), d, now), known,
                        "processed_ack_after_commit");
    } else {
      ProjectProgresses(s, row, room, hooks, d, now, m, ReclaimedRow(s, row.value, now), known,
                        "reclaimed_processed_ack_after_commit");
    }
  }

  lemma PlanProgresses(s: Settings, row: Option<InboxRow>, known: bool, room: nat, hooks: Hooks, d: Delivery,
                       now: Instant, w: Work)
    requires !w.Unhandled? && Depth(w) < room && Unleased(row, now, w)
    ensures Progress(hooks, PlanFor(s, row, known, room, hooks, d, now, w))
  {
    match w
    case Apply(m) => ApplyProgresses(s, row, known, room, hooks, d, now, m);
    case Refuse(h, code, detail, _) => QuarantineProgresses(s, row, hooks, d, now, h, code, detail, false);
  }

  lemma ExecuteProgresses(st: State, k: InboxKey, plan: Plan)
    requires Progress(st.hooks, plan)
    ensures Acked(Execute(st, k, plan)) || Weight(Execute(st, k, plan).state.hooks) < Weight(st.hooks)
  {
  }

  /**
   A handling of a readable message, past its lease and on a store its transaction can copy, ends in an ACK or leaves
   fewer failures waiting than it met.
   */
  lemma StepProgresses(s: Settings, st: State, ev: Event)
    requires CanBegin(s, st, s.read(ev.delivery))
    requires Unleased(RowAt(st, KeyOf(s, IdOf(s, ev.delivery))), ev.now, s.read(ev.delivery))
    ensures Acked(Step(s, st, ev)) || Weight(Step(s, st, ev).state.hooks) < Weight(st.hooks) + Weight(ev.armed)
  {
    var w := s.read(ev.delivery);
    var k := KeyOf(s, EventIdOf(w));
    ArmingAdds(st.hooks, ev.armed);
    PlanProgresses(s, RowAt(st, k), EventIdOf(w) in st.observations, RoomOf(s, st), Arm(st.hooks, ev.armed),
                   ev.delivery, ev.now, w);
    ExecuteProgresses(Armed(st, ev), k, PlanAt(s, st, ev));
    StepIsPlanned(s, st, ev);
  }

  /** The row of an event is what it was, or final. */
  lemma RowKeptOrFinal(s: Settings, st: State, ev: Event, k: InboxKey)
    ensures RowAt(Step(s, st, ev).state, k) == RowAt(st, k)
      || (RowAt(Step(s, st, ev).state, k).Some? && IsTerminal(RowAt(Step(s, st, ev).state, k).value))
  {
    StepIsPlanned(s, st, ev);
    ExecuteTables(Armed(st, ev), KeyOf(s, IdOf(s, ev.delivery)), PlanAt(s, st, ev));
  }

  /** Only a handling that commits an observation changes the observations, and only by it. */
  lemma ExecuteObservations(st: State, k: InboxKey, plan: Plan)
    ensures var after := Execute(st, k, plan).state.observations;
      after == if plan.Save? && plan.observation.Some? && k.eventId !in st.observations
        then st.observations[k.eventId := plan.observation.value] else st.observations
  {
  }

  /** What a handling adds to the observations: the projection of its own message, or nothing. */
  lemma StepObservations(s: Settings, st: State, ev: Event)
    ensures var w, after := s.read(ev.delivery), Step(s, st, ev).state.observations;
      || after == st.observations
      || (w.Apply? && w.message.eventId !in st.observations
          && after == st.observations[w.message.eventId := Project(w.message, ev.now)])
  {
    StepIsPlanned(s, st, ev);
    ExecuteObservations(Armed(st, ev), KeyOf(s, IdOf(s, ev.delivery)), PlanAt(s, st, ev));
  }

  /** The room of a store with one more observation. */
  lemma RoomWithOneMore(out: Outside, os: Observations, e: Uuid, o: Observation)
    requires e !in os
    ensures Room(out, os[e := o]) <= Room(out, os)
    ensures Room(out, os[e := o]) > 0 <==> Room(out, os) > 0 && MetadataCopyable(o.safeMetadata, out.copyFrames)
    ensures Room(out, os[e := o]) > 1 <==> Room(out, os) > 1 && MetadataCopyable(o.safeMetadata, out.copyFrames - 1)
  {
    RoomMeans(out, os);
    RoomMeans(out, os[e := o]);
    forall deeper: nat
      ensures Copies(out, os[e := o], deeper) <==>
        Copies(out, os, deeper) && MetadataCopyable(o.safeMetadata, out.copyFrames - deeper)
    {
      CopiesWithOneMore(out, os, e, o, deeper);
    }
  }

  lemma CopiesWithOneMore(out: Outside, os: Observations, e: Uuid, o: Observation, deeper: nat)
    requires e !in os
    ensures Copies(out, os[e := o], deeper) <==>
      Copies(out, os, deeper) && MetadataCopyable(o.safeMetadata, out.copyFrames - deeper)
  {
    var more := os[e := o];
    assert forall f :: f in os ==> f in more && more[f] == os[f];
    assert e in more && more[e] == o;
  }

  // ---------------------------------------------------------------- a store that cannot be copied

  lemma StuckStep(s: Settings, st: State, ev: Event)
    requires RoomOf(s, st) == 0
    ensures var w, h := s.read(ev.delivery), Step(s, st, ev);
      && h.log == [] && SameStore(h.state, st)
      && h.ending == if w.Unhandled? then Raised(w.escape) else Stuck
  {
    StepIsPlanned(s, st, ev);
  }

  lemma StuckNext(s: Settings, reached: State, st: State, ev: Event)
    requires RoomOf(s, reached) == 0 && SameStore(st, reached)
    ensures var w, h := s.read(ev.delivery), Step(s, st, ev);
      && h.log == [] && SameStore(h.state, reached)
      && h.ending == if w.Unhandled? then Raised(w.escape) else Stuck
  {
    StuckStep(s, st, ev);
  }

  lemma StuckSince(s: Settings, st: State, evs: seq<Event>, i: nat, n: nat, reached: State)
    requires i <= n <= |evs| && reached == Run(s, st, evs[..i]) && RoomOf(s, reached) == 0
    ensures SameStore(Run(s, st, evs[..n]), reached)
  {
    var kept := (x: State) => SameStore(x, reached);
    forall x: State, k: nat | i <= k < n && kept(x) ensures kept(Step(s, x, evs[k]).state) {
      StuckNext(s, reached, x, evs[k]);
    }
    RunKeeps(s, st, evs, i, n, kept);
  }

  /**
   Once a run has reached a store whose metadata cannot be copied, no delivery of any event is answered and no table
   changes any more: reading it raises, or beginning its transaction does.
   */
  lemma StuckForever(s: Settings, st: State, evs: seq<Event>, i: nat, j: nat)
    requires i <= j < |evs| && RoomOf(s, Run(s, st, evs[..i])) == 0
    ensures SameStore(At(s, st, evs, j).state, Run(s, st, evs[..i]))
    ensures At(s, st, evs, j).log == []
    ensures var w := s.read(evs[j].delivery);
      At(s, st, evs, j).ending == if w.Unhandled? then Raised(w.escape) else Stuck
  {
    StuckSince(s, st, evs, i, j, Run(s, st, evs[..i]));
    StuckNext(s, Run(s, st, evs[..i]), Run(s, st, evs[..j]), evs[j]);
  }

  // ---------------------------------------------------------------- redelivery

  /** Redelivery of one message, every time past the lease its row had at the start. */
  ghost predicate Redelivers(s: Settings, st: State, d: Delivery, evs: seq<Event>) {
    forall i :: 0 <= i < |evs| ==>
      evs[i].delivery == d && Unleased(RowAt(st, KeyOf(s, IdOf(s, d))), evs[i].now, s.read(d))
  }

  ghost predicate NoAckBefore(s: Settings, st: State, evs: seq<Event>, n: nat) {
    forall i :: 0 <= i < n && i < |evs| ==> !Acked(At(s, st, evs, i))
  }

  /** Before any ACK, a crash between commit and ACK has left a store that cannot be copied any more. */
  ghost predicate LostAt(s: Settings, st: State, evs: seq<Event>, i: nat) {
    && i < |evs| && NoAckBefore(s, st, evs, i)
    && At(s, st, evs, i).ending.Crashed? && RoomOf(s, At(s, st, evs, i).state) == 0
  }

  /** Short of such a loss, a handling without an ACK leaves the message's next transaction able to begin. */
  lemma RoomIsKept(s: Settings, st: State, ev: Event)
    requires CanBegin(s, st, s.read(ev.delivery)) && !Acked(Step(s, st, ev))
    ensures var after := Step(s, st, ev).state;
      CanBegin(s, after, s.read(ev.delivery)) || (Step(s, st, ev).ending.Crashed? && RoomOf(s, after) == 0)
  {
    StepObservations(s, st, ev);
    StepIsPlanned(s, st, ev);
    UnansweredSaves(Armed(st, ev), KeyOf(s, IdOf(s, ev.delivery)), PlanAt(s, st, ev));
  }

  lemma UnansweredSaves(st: State, k: InboxKey, plan: Plan)
    requires plan.Save? ==> plan.outcome.action == Ack
    ensures var h := Execute(st, k, plan);
      !Acked(h) && h.state.observations != st.observations ==> h.ending.Crashed?
  {
  }

  /** While no ACK is sent and nothing is lost, failures are spent, and the message stays one that can be handled. */
  lemma {:induction false} FailuresAreSpent(s: Settings, st: State, d: Delivery, evs: seq<Event>, n: nat)
    requires n <= |evs| && Redelivers(s, st, d, evs) && CanBegin(s, st, s.read(d))
    requires NoAckBefore(s, st, evs, |evs|) && !SomeLoss(s, st, evs)
    ensures Weight(Run(s, st, evs[..n]).hooks) + n <= Weight(st.hooks) + Injected(evs[..n])
    ensures CanBegin(s, Run(s, st, evs[..n]), s.read(d))
    ensures KeptOrFinal(RowAt(st, KeyOf(s, IdOf(s, d))), RowAt(Run(s, st, evs[..n]), KeyOf(s, IdOf(s, d))))
  {
    if n > 0 {
      FailuresAreSpent(s, st, d, evs, n - 1);
      assert evs[..n][..n - 1] == evs[..n - 1];
      RunExtends(s, st, evs, n - 1);
      assert !LostAt(s, st, evs, n - 1);
      OneMoreSpent(s, Run(s, st, evs[..n - 1]), d, evs[n - 1], RowAt(st, KeyOf(s, IdOf(s, d))));
    }
  }

  predicate KeptOrFinal(before: Option<InboxRow>, row: Option<InboxRow>) {
    row == before || (row.Some? && IsTerminal(row.value))
  }

  lemma OneMoreSpent(s: Settings, st: State, d: Delivery, ev: Event, row: Option<InboxRow>)
    requires ev.delivery == d && CanBegin(s, st, s.read(d)) && !Acked(Step(s, st, ev))
    requires !(Step(s, st, ev).ending.Crashed? && RoomOf(s, Step(s, st, ev).state) == 0)
    requires Unleased(row, ev.now, s.read(d)) && KeptOrFinal(row, RowAt(st, KeyOf(s, IdOf(s, d))))
    ensures Weight(Step(s, st, ev).state.hooks) < Weight(st.hooks) + Weight(ev.armed)
    ensures CanBegin(s, Step(s, st, ev).state, s.read(d))
    ensures KeptOrFinal(row, RowAt(Step(s, st, ev).state, KeyOf(s, IdOf(s, d))))
  {
    StepProgresses(s, st, ev);
    RoomIsKept(s, st, ev);
    RowKeptOrFinal(s, st, ev, KeyOf(s, IdOf(s, d)));
  }

  lemma UnhandledChangesNothing(s: Settings, st: State, d: Delivery, evs: seq<Event>, n: nat)
    requires n <= |evs| && s.read(d).Unhandled? && forall i :: 0 <= i < |evs| ==> evs[i].delivery == d
    ensures SameStore(Run(s, st, evs[..n]), st)
  {
    var kept := (x: State) => SameStore(x, st);
    forall x: State, k: nat | k < n && kept(x) ensures kept(Step(s, x, evs[k]).state) {
      UnhandledStep(s, x, evs[k]);
    }
    RunKeeps(s, st, evs, 0, n, kept);
  }

  /** A delivery that escapes every handler is answered nothing and changes nothing, however often it comes. */
  lemma UnhandledNeverConverges(s: Settings, st: State, d: Delivery, evs: seq<Event>)
    requires s.read(d).Unhandled? && forall i :: 0 <= i < |evs| ==> evs[i].delivery == d
    ensures SameStore(Run(s, st, evs), st)
    ensures forall i :: 0 <= i < |evs| ==>
      At(s, st, evs, i).log == [] && At(s, st, evs, i).ending == Raised(s.read(d).escape)
  {
    UnhandledChangesNothing(s, st, d, evs, |evs|);
    assert evs[..|evs|] == evs;
    forall i | 0 <= i < |evs|
      ensures At(s, st, evs, i).log == [] && At(s, st, evs, i).ending == Raised(s.read(d).escape)
    {
      UnhandledStep(s, Run(s, st, evs[..i]), evs[i]);
    }
  }

  lemma UnhandledStep(s: Settings, st: State, ev: Event)
    requires s.read(ev.delivery).Unhandled?
    ensures var h := Step(s, st, ev);
      h.log == [] && h.ending == Raised(s.read(ev.delivery).escape) && SameStore(h.state, st)
  {
  }

  lemma CannotBeginStep(s: Settings, st: State, ev: Event)
    requires !s.read(ev.delivery).Unhandled? && !CanBegin(s, st, s.read(ev.delivery))
    ensures Step(s, st, ev).log == [] && Step(s, st, ev).ending.Stuck? && SameStore(Step(s, st, ev).state, st)
  {
    StepIsPlanned(s, st, ev);
  }

  lemma CannotBeginIsSilent(s: Settings, st: State, ev: Event)
    requires !CanBegin(s, st, s.read(ev.delivery))
    ensures Step(s, st, ev).log == [] && SameStore(Step(s, st, ev).state, st)
  {
    if s.read(ev.delivery).Unhandled? {
      UnhandledStep(s, st, ev);
    } else {
      CannotBeginStep(s, st, ev);
    }
  }

  lemma SilentNext(s: Settings, st: State, x: State, ev: Event)
    requires !CanBegin(s, st, s.read(ev.delivery)) && SameStore(x, st)
    ensures Step(s, x, ev).log == [] && SameStore(Step(s, x, ev).state, st)
  {
    CannotBeginIsSilent(s, x, ev);
  }

  /** A message whose transaction cannot begin now never will, redelivered alone. */
  lemma NeverBegins(s: Settings, st: State, d: Delivery, evs: seq<Event>, n: nat)
    requires n < |evs| && !CanBegin(s, st, s.read(d)) && forall i :: 0 <= i < |evs| ==> evs[i].delivery == d
    ensures !Acked(At(s, st, evs, n))
  {
    var kept := (x: State) => SameStore(x, st);
    forall x: State, k: nat | k < n && kept(x) ensures kept(Step(s, x, evs[k]).state) {
      SilentNext(s, st, x, evs[k]);
    }
    RunKeeps(s, st, evs, 0, n, kept);
    SilentNext(s, st, Run(s, st, evs[..n]), evs[n]);
  }

  lemma NeverAcked(s: Settings, st: State, d: Delivery, evs: seq<Event>)
    requires !CanBegin(s, st, s.read(d)) && forall i :: 0 <= i < |evs| ==> evs[i].delivery == d
    ensures !SomeAck(s, st, evs)
  {
    forall i | 0 <= i < |evs| ensures !Acked(At(s, st, evs, i)) {
      NeverBegins(s, st, d, evs, i);
    }
  }

  lemma LostIsFinal(s: Settings, st: State, evs: seq<Event>, i: nat, j: nat)
    requires LostAt(s, st, evs, i) && j < |evs|
    ensures !Acked(At(s, st, evs, j))
  {
    if i < j {
      RunExtends(s, st, evs, i);
      StuckForever(s, st, evs, i + 1, j);
    } else if i == j {
      CrashedIsNotAcked(s, Run(s, st, evs[..i]), evs[i]);
    }
  }

  lemma CrashedIsNotAcked(s: Settings, st: State, ev: Event)
    requires Step(s, st, ev).ending.Crashed?
    ensures !Acked(Step(s, st, ev))
  {
    StepIsPlanned(s, st, ev);
  }

  ghost predicate SomeAck(s: Settings, st: State, evs: seq<Event>) {
    exists i :: 0 <= i < |evs| && Acked(At(s, st, evs, i))
  }

  ghost predicate SomeLoss(s: Settings, st: State, evs: seq<Event>) {
    exists i: nat :: LostAt(s, st, evs, i)
  }

  lemma AckedWithoutLoss(s: Settings, st: State, d: Delivery, evs: seq<Event>)
    requires Redelivers(s, st, d, evs) && |evs| > Weight(st.hooks) + Injected(evs)
    requires CanBegin(s, st, s.read(d)) && !SomeLoss(s, st, evs)
    ensures SomeAck(s, st, evs)
  {
    assert evs[..|evs|] == evs;
    if !SomeAck(s, st, evs) {
      assert NoAckBefore(s, st, evs, |evs|);
      FailuresAreSpent(s, st, d, evs, |evs|);
    }
  }

  lemma NoAckAfterLoss(s: Settings, st: State, evs: seq<Event>)
    requires SomeLoss(s, st, evs)
    ensures !SomeAck(s, st, evs)
  {
    var i: nat :| LostAt(s, st, evs, i);
    forall j | 0 <= j < |evs| ensures !Acked(At(s, st, evs, j)) {
      LostIsFinal(s, st, evs, i, j);
    }
  }

  /**
   Bounded convergence, from any store and under either quarantine policy: redelivered past any lease, with fewer
   failures injected than there are handlings, a message is ACKed by one of them if and only if it can be read, its
   transaction can copy the store, and no crash between commit and ACK leaves a store that cannot be copied.
   */
  lemma RedeliveryConverges(s: Settings, st: State, d: Delivery, evs: seq<Event>)
    requires Redelivers(s, st, d, evs) && |evs| > Weight(st.hooks) + Injected(evs)
    ensures SomeAck(s, st, evs) <==> CanBegin(s, st, s.read(d)) && !SomeLoss(s, st, evs)
  {
    if !CanBegin(s, st, s.read(d)) {
      NeverAcked(s, st, d, evs);
    } else if SomeLoss(s, st, evs) {
      NoAckAfterLoss(s, st, evs);
    } else {
      AckedWithoutLoss(s, st, d, evs);
    }
  }

  // ---------------------------------------------------------------- when every redelivery converges

  /** A row on which a valid message is not projected any more. */
  predicate Blocked(s: Settings, row: Option<InboxRow>) {
    row.Some? &&
    (|| row.value.status == Processed
     || (row.value.status == Quarantined && s.policy.AckTerminal?)
     || ShouldQuarantine(Transient, row.value.attemptCount + 1, s.maxAttempts))
  }

  /** Projecting the message would store metadata that no later transaction can copy. */
  predicate Trap(s: Settings, st: State, w: Work) {
    && w.Apply? && w.message.eventId !in st.observations && !Blocked(s, RowAt(st, KeyOf(s, w.message.eventId)))
    && !MetadataCopyable(w.message.safeMetadata, s.out.copyFrames)
  }

  lemma BlockedPlan(s: Settings, row: Option<InboxRow>, known: bool, room: nat, hooks: Hooks, d: Delivery,
                    now: Instant, m: Message)
    requires Blocked(s, row)
    ensures var plan := ApplyPlan(s, row, known, room, hooks, d, now, m);
      plan.Save? ==> plan.observation.None? && Blocked(s, Some(plan.row))
  {
  }

  lemma BlockedStays(s: Settings, st: State, ev: Event)
    requires s.read(ev.delivery).Apply? && Blocked(s, RowAt(st, KeyOf(s, IdOf(s, ev.delivery))))
    ensures Step(s, st, ev).state.observations == st.observations
    ensures Blocked(s, RowAt(Step(s, st, ev).state, KeyOf(s, IdOf(s, ev.delivery))))
  {
    var w := s.read(ev.delivery);
    var k := KeyOf(s, EventIdOf(w));
    StepIsPlanned(s, st, ev);
    BlockedPlan(s, RowAt(st, k), EventIdOf(w) in st.observations, RoomOf(s, st), Arm(st.hooks, ev.armed), ev.delivery,
                ev.now, w.message);
    BlockedExecute(s, Armed(st, ev), k, PlanAt(s, st, ev));
  }

  lemma BlockedExecute(s: Settings, st: State, k: InboxKey, plan: Plan)
    requires Blocked(s, RowAt(st, k))
    requires plan.Save? ==> plan.observation.None? && Blocked(s, Some(plan.row))
    ensures Execute(st, k, plan).state.observations == st.observations
    ensures Blocked(s, RowAt(Execute(st, k, plan).state, k))
  {
  }

  /** Out of the trap a handling keeps the room it needs, and stays out. */
  lemma NoTrapStep(s: Settings, st: State, ev: Event)
    requires CanBegin(s, st, s.read(ev.delivery)) && !Trap(s, st, s.read(ev.delivery))
    ensures CanBegin(s, Step(s, st, ev).state, s.read(ev.delivery))
    ensures !Trap(s, Step(s, st, ev).state, s.read(ev.delivery))
  {
    var w := s.read(ev.delivery);
    StepObservations(s, st, ev);
    if w.Apply? && Blocked(s, RowAt(st, KeyOf(s, w.message.eventId))) {
      BlockedStays(s, st, ev);
    } else if w.Apply? && w.message.eventId !in st.observations {
      RoomWithOneMore(s.out, st.observations, w.message.eventId, Project(w.message, ev.now));
    }
  }

  lemma NoTrapRun(s: Settings, st: State, d: Delivery, evs: seq<Event>, n: nat)
    requires n <= |evs| && CanBegin(s, st, s.read(d)) && !Trap(s, st, s.read(d))
    requires forall i :: 0 <= i < |evs| ==> evs[i].delivery == d
    ensures CanBegin(s, Run(s, st, evs[..n]), s.read(d))
  {
    var safe := (x: State) => CanBegin(s, x, s.read(d)) && !Trap(s, x, s.read(d));
    forall x: State, k: nat | k < n && safe(x) ensures safe(Step(s, x, evs[k]).state) {
      NoTrapStep(s, x, evs[k]);
    }
    RunKeeps(s, st, evs, 0, n, safe);
  }

  lemma NoTrapNoLoss(s: Settings, st: State, d: Delivery, evs: seq<Event>)
    requires CanBegin(s, st, s.read(d)) && !Trap(s, st, s.read(d))
    requires forall i :: 0 <= i < |evs| ==> evs[i].delivery == d
    ensures !SomeLoss(s, st, evs)
  {
    forall i: nat ensures !LostAt(s, st, evs, i) {
      if i < |evs| {
        RunExtends(s, st, evs, i);
        NoTrapRun(s, st, d, evs, i + 1);
      }
    }
  }

  /** Every redelivery past the lease, with more handlings than failures, sends an ACK. */
  ghost predicate AlwaysConverges(s: Settings, st: State, d: Delivery) {
    forall evs :: Redelivers(s, st, d, evs) && |evs| > Weight(st.hooks) + Injected(evs) ==> SomeAck(s, st, evs)
  }

  /** A moment past the lease of a row. */
  function Later(row: Option<InboxRow>): Instant {
    if row.Some? && row.value.leaseUntil.Some? then row.value.leaseUntil.value else 0
  }

  const CRASH := Hooks(false, None, false, true)

  /** The crash that springs the trap: the message is projected and committed, and its ACK lost. */
  lemma TrapSprings(s: Settings, st: State, ev: Event)
    requires st.hooks == QUIET && ev.armed == CRASH && CanBegin(s, st, s.read(ev.delivery))
    requires Trap(s, st, s.read(ev.delivery))
    requires Unleased(RowAt(st, KeyOf(s, IdOf(s, ev.delivery))), ev.now, s.read(ev.delivery))
    ensures !Acked(Step(s, st, ev)) && RoomOf(s, Step(s, st, ev).state) == 0
  {
    var w := s.read(ev.delivery);
    var k := KeyOf(s, EventIdOf(w));
    StepIsPlanned(s, st, ev);
    TrapPlan(s, RowAt(st, k), RoomOf(s, st), CRASH, ev.delivery, ev.now, w.message);
    TrapExecute(Armed(st, ev), k, PlanAt(s, st, ev));
    RoomWithOneMore(s.out, st.observations, w.message.eventId, Project(w.message, ev.now));
  }

  lemma TrapPlan(s: Settings, row: Option<InboxRow>, room: nat, hooks: Hooks, d: Delivery, now: Instant, m: Message)
    requires !Blocked(s, row) && LeaseOver(row, now) && !hooks.failProjection && hooks.poisonProjection.None?
    ensures var plan := ApplyPlan(s, row, false, room, hooks, d, now, m);
      plan.Save? && plan.hooks == hooks && plan.observation == Some(Project(m, now)) && plan.outcome.action == Ack
  {
  }

  lemma TrapExecute(st: State, k: InboxKey, plan: Plan)
    requires k.eventId !in st.observations
    requires plan.Save? && plan.observation.Some? && plan.outcome.action == Ack
    ensures var h := Execute(st, k, plan);
      (Acked(h) <==> !plan.hooks.crashBeforeAck)
        && h.state.observations == st.observations[k.eventId := plan.observation.value]
  {
  }

  lemma OneEvent(s: Settings, st: State, ev: Event)
    ensures At(s, st, [ev], 0) == Step(s, st, ev) && Run(s, st, [ev]) == Step(s, st, ev).state
    ensures Injected([ev]) == Weight(ev.armed)
  {
    assert [ev][..0] == [];
  }

  lemma TwoEvents(s: Settings, st: State, x: Event, y: Event)
    ensures At(s, st, [x, y], 0) == Step(s, st, x) && At(s, st, [x, y], 1) == Step(s, Step(s, st, x).state, y)
    ensures Run(s, st, [x, y]) == Step(s, Step(s, st, x).state, y).state
    ensures Injected([x, y]) == Weight(x.armed) + Weight(y.armed)
  {
    assert [x, y][..0] == [] && [x, y][..1] == [x];
    OneEvent(s, st, x);
  }

  /** One redelivery after the crash, and no ACK. */
  lemma TrapDefeats(s: Settings, st: State, d: Delivery)
    requires st.hooks == QUIET && CanBegin(s, st, s.read(d)) && Trap(s, st, s.read(d))
    ensures !AlwaysConverges(s, st, d)
  {
    var now := Later(RowAt(st, KeyOf(s, IdOf(s, d))));
    var x, y := Event(d, now, CRASH), Event(d, now, QUIET);
    TwoEvents(s, st, x, y);
    TrapSprings(s, st, x);
    StuckStep(s, Step(s, st, x).state, y);
    assert Redelivers(s, st, d, [x, y]);
    NeitherAcked(s, st, x, y);
  }

  lemma NeitherAcked(s: Settings, st: State, x: Event, y: Event)
    requires !Acked(At(s, st, [x, y], 0)) && !Acked(At(s, st, [x, y], 1))
    ensures !SomeAck(s, st, [x, y])
  {
    forall i | 0 <= i < 2 ensures !Acked(At(s, st, [x, y], i)) {
      assert i == 0 || i == 1;
    }
  }

  lemma NoBeginningDefeats(s: Settings, st: State, d: Delivery)
    requires st.hooks == QUIET && !CanBegin(s, st, s.read(d))
    ensures !AlwaysConverges(s, st, d)
  {
    var evs := [Event(d, Later(RowAt(st, KeyOf(s, IdOf(s, d)))), QUIET)];
    OneEvent(s, st, evs[0]);
    NeverAcked(s, st, d, evs);
    assert Redelivers(s, st, d, evs);
  }

  /**
   From a store without armed failures, every redelivery of a message converges exactly if it can be read, the store can
   be copied from where its transaction begins, and it would not store new metadata that cannot be copied again.
   */
  lemma ConvergesExactly(s: Settings, st: State, d: Delivery)
    requires st.hooks == QUIET
    ensures AlwaysConverges(s, st, d) <==> CanBegin(s, st, s.read(d)) && !Trap(s, st, s.read(d))
  {
    if !CanBegin(s, st, s.read(d)) {
      NoBeginningDefeats(s, st, d);
    } else if Trap(s, st, s.read(d)) {
      TrapDefeats(s, st, d);
    } else {
      forall evs | Redelivers(s, st, d, evs) && |evs| > Weight(st.hooks) + Injected(evs) ensures SomeAck(s, st, evs) {
        NoTrapNoLoss(s, st, d, evs);
        AckedWithoutLoss(s, st, d, evs);
      }
    }
  }

  // ---------------------------------------------------------------- one message that stops everything

  lemma QuietTrap(s: Settings, st: State, x: Event)
    requires st.hooks == QUIET && x.armed == QUIET && CanBegin(s, st, s.read(x.delivery))
    requires Trap(s, st, s.read(x.delivery))
    requires Unleased(RowAt(st, KeyOf(s, IdOf(s, x.delivery))), x.now, s.read(x.delivery))
    ensures Acked(Step(s, st, x)) && RoomOf(s, Step(s, st, x).state) == 0
  {
    var w := s.read(x.delivery);
    var k := KeyOf(s, EventIdOf(w));
    StepIsPlanned(s, st, x);
    TrapPlan(s, RowAt(st, k), RoomOf(s, st), QUIET, x.delivery, x.now, w.message);
    TrapExecute(Armed(st, x), k, PlanAt(s, st, x));
    RoomWithOneMore(s.out, st.observations, w.message.eventId, Project(w.message, x.now));
  }

  /**
   A valid message with metadata too deep to copy is processed and acknowledged like any other; after it no delivery of
   any event is ever answered again.
   */
  lemma DeepMessageStopsEverything(s: Settings, st: State, x: Event, evs: seq<Event>, j: nat)
    requires st.hooks == QUIET && x.armed == QUIET && CanBegin(s, st, s.read(x.delivery))
    requires Trap(s, st, s.read(x.delivery))
    requires Unleased(RowAt(st, KeyOf(s, IdOf(s, x.delivery))), x.now, s.read(x.delivery))
    requires j < |evs|
    ensures Acked(Step(s, st, x))
    ensures At(s, Step(s, st, x).state, evs, j).log == []
    ensures SameStore(At(s, Step(s, st, x).state, evs, j).state, Step(s, st, x).state)
  {
    QuietTrap(s, st, x);
    assert evs[..0] == [];
    StuckForever(s, Step(s, st, x).state, evs, 0, j);
  }

  /** While another owner's lease runs, a valid message is deferred, if its transaction can begin; nothing is stored. */
  lemma LeasedIsDeferred(s: Settings, st: State, ev: Event)
    requires s.read(ev.delivery).Apply? && !LeaseOver(RowAt(st, KeyOf(s, IdOf(s, ev.delivery))), ev.now)
    ensures SameStore(Step(s, st, ev).state, st)
    ensures Step(s, st, ev).log == if RoomOf(s, st) > 0 then [Rollback, Sent(Defer)] else []
  {
    StepIsPlanned(s, st, ev);
  }
}
