/** Independence of the consumer's runs from delivery order, where it ends, and one observation per source row. */
module InboxOrder {
  import opened Wrappers
  import opened Json
  import opened Messaging
  import opened AuditTypes
  import opened InboxSpec
  import opened InboxRuns
  import opened InboxProgress
  import Envelope
  import Validation

  // ---------------------------------------------------------------- order does not matter

  function Timeless(o: Observation): Observation {
    o.(receivedAt := 0)
  }

  function ObservationAt(st: State, e: Uuid): Option<Observation> {
    if e in st.observations then Some(Timeless(st.observations[e])) else None
  }

  /** What reading a delivery asks of its event: an observation up to the time of receipt, a rejection, or nothing. */
  datatype Effect = Projects(observation: Observation) | Rejects(eventId: Uuid) | Nothing

  function EffectOf(w: Work): Effect {
    match w
    case Apply(m) => Projects(Project(m, 0))
    case Refuse(h, _, _, _) => Rejects(h.eventId)
    case Unhandled(_) => Nothing
  }

  predicate About(f: Effect, e: Uuid) {
    (f.Projects? && f.observation.eventId == e) || (f.Rejects? && f.eventId == e)
  }

  /** What an effect had once, without failures, makes of its event's row status and observation. */
  datatype Verdict = Verdict(status: InboxStatus, observation: Option<Observation>)

  function Settle(s: Settings, row: Option<InboxRow>, o: Option<Observation>, f: Effect): Verdict
    requires !f.Nothing?
  {
    if row.Some? && row.value.status == Processed then Verdict(Processed, o)
    else if f.Rejects? || (row.Some? && row.value.status == Quarantined && s.policy.AckTerminal?)
      || (row.Some? && ShouldQuarantine(Transient, row.value.attemptCount + 1, s.maxAttempts)) then
        Verdict(Quarantined, o)
    else Verdict(Processed, if o.Some? then o else Some(f.observation))
  }

  /** The verdict stands in the store, and having the same effect again will not change it. */
  ghost predicate Settled(s: Settings, st: State, e: Uuid, f: Effect, v: Verdict)
    requires !f.Nothing?
  {
    var row := RowAt(st, KeyOf(s, e));
    && row.Some? && row.value.status == v.status && ObservationAt(st, e) == v.observation
    && Settle(s, row, ObservationAt(st, e), f) == v
  }

  /** What a failure-free decision has to be, in terms of the verdict. */
  ghost predicate PlanMeets(s: Settings, row: Option<InboxRow>, o: Option<Observation>, f: Effect, plan: Plan,
                            v: Verdict)
    requires !f.Nothing?
  {
    && !plan.Raise? && !plan.Stall? && plan.hooks == QUIET
    && (plan.Refrain? ==> row.Some? && v == Verdict(row.value.status, o) && Settle(s, row, o, f) == v)
    && (plan.Save? ==>
          && plan.row.status == v.status && Settle(s, Some(plan.row), v.observation, f) == v
          && v.observation == if o.Some? || plan.observation.None? then o else Some(Timeless(plan.observation.value)))
  }

  lemma QuietProjectMeets(s: Settings, row: Option<InboxRow>, o: Option<Observation>, room: nat, d: Delivery,
                          now: Instant, m: Message, base: InboxRow, reason: string)
    requires row.Some? ==> row.value.status != Processed && !(row.value.status == Quarantined && s.policy.AckTerminal?)
    requires row.Some? ==> !ShouldQuarantine(Transient, row.value.attemptCount + 1, s.maxAttempts)
    ensures var f := EffectOf(Apply(m));
      PlanMeets(s, row, o, f, ProjectPlan(s, row, room, QUIET, d, now, m, base, o.Some?, reason), Settle(s, row, o, f))
  {
  }

  lemma QuietDuplicateMeets(s: Settings, row: InboxRow, o: Option<Observation>, room: nat, d: Delivery, now: Instant,
                            m: Message)
    requires LeaseOver(Some(row), now)
    ensures var f := EffectOf(Apply(m));
      PlanMeets(s, Some(row), o, f, DuplicatePlan(s, row, room, QUIET, d, now, m, o.Some?), Settle(s, Some(row), o, f))
  {
    var decision := DecideDuplicate(row.status, row.leaseUntil, now, s.policy);
    if decision.rerun && !ShouldQuarantine(Transient, row.attemptCount + 1, s.maxAttempts) {
      QuietProjectMeets(s, Some(row), o, room, d, now, m, ReclaimedRow(s, row, now),
                        "reclaimed_processed_ack_after_commit");
    }
  }

  lemma QuietApplyMeets(s: Settings, row: Option<InboxRow>, o: Option<Observation>, room: nat, d: Delivery,
                        now: Instant, m: Message)
    requires LeaseOver(row, now)
    ensures var f := EffectOf(Apply(m));
      PlanMeets(s, row, o, f, ApplyPlan(s, row, o.Some?, room, QUIET, d, now, m), Settle(s, row, o, f))
  {
    if row.Some? {
      QuietDuplicateMeets(s, row.value, o, room, d, now, m);
    } else {
      QuietProjectMeets(s, row, o, room, d, now, m, FreshRow(s, MessageHeader(m), d, now),
                        "processed_ack_after_commit");
    }
  }

  lemma QuietPlanMeets(s: Settings, row: Option<InboxRow>, o: Option<Observation>, room: nat, d: Delivery,
                       now: Instant, w: Work)
    requires !w.Unhandled? && Depth(w) < room && Unleased(row, now, w)
    ensures PlanMeets(s, row, o, EffectOf(w), PlanFor(s, row, o.Some?, room, QUIET, d, now, w),
                      Settle(s, row, o, EffectOf(w)))
  {
    if w.Apply? {
      QuietApplyMeets(s, row, o, room, d, now, w.message);
    }
  }

  lemma QuietExecuteSettles(s: Settings, st: State, e: Uuid, f: Effect, plan: Plan, v: Verdict)
    requires !f.Nothing? && PlanMeets(s, RowAt(st, KeyOf(s, e)), ObservationAt(st, e), f, plan, v)
    ensures Settled(s, Execute(st.(hooks := QUIET), KeyOf(s, e), plan).state, e, f, v)
    ensures Execute(st.(hooks := QUIET), KeyOf(s, e), plan).state.hooks == QUIET
  {
  }

  ghost predicate Quiet(evs: seq<Event>) {
    forall i :: 0 <= i < |evs| ==> evs[i].armed == QUIET
  }

  lemma QuietStepSettles(s: Settings, st: State, ev: Event, e: Uuid)
    requires st.hooks == QUIET && ev.armed == QUIET && About(EffectOf(s.read(ev.delivery)), e)
    requires CanBegin(s, st, s.read(ev.delivery))
    requires Unleased(RowAt(st, KeyOf(s, e)), ev.now, s.read(ev.delivery))
    ensures Step(s, st, ev).state.hooks == QUIET
    ensures var f := EffectOf(s.read(ev.delivery));
      Settled(s, Step(s, st, ev).state, e, f, Settle(s, RowAt(st, KeyOf(s, e)), ObservationAt(st, e), f))
  {
    var w := s.read(ev.delivery);
    var row, o := RowAt(st, KeyOf(s, e)), ObservationAt(st, e);
    StepIsPlanned(s, st, ev);
    QuietPlanMeets(s, row, o, RoomOf(s, st), ev.delivery, ev.now, w);
    QuietExecuteSettles(s, st, e, EffectOf(w), PlanAt(s, st, ev), Settle(s, row, o, EffectOf(w)));
  }

  lemma ExecuteTouchesOneKey(s: Settings, st: State, k: InboxKey, plan: Plan, e: Uuid)
    requires plan.Raise? || k.eventId != e
    ensures RowAt(Execute(st, k, plan).state, KeyOf(s, e)) == RowAt(st, KeyOf(s, e))
    ensures ObservationAt(Execute(st, k, plan).state, e) == ObservationAt(st, e)
  {
  }

  lemma OtherEventsUntouched(s: Settings, st: State, ev: Event, e: Uuid)
    requires !About(EffectOf(s.read(ev.delivery)), e)
    ensures RowAt(Step(s, st, ev).state, KeyOf(s, e)) == RowAt(st, KeyOf(s, e))
    ensures ObservationAt(Step(s, st, ev).state, e) == ObservationAt(st, e)
  {
    StepIsPlanned(s, st, ev);
    ExecuteTouchesOneKey(s, Armed(st, ev), KeyOf(s, IdOf(s, ev.delivery)), PlanAt(s, st, ev), e);
  }

  function EffectsOf(s: Settings, evs: seq<Event>): (fs: seq<Effect>)
    ensures |fs| == |evs| && forall i :: 0 <= i < |evs| ==> fs[i] == EffectOf(s.read(evs[i].delivery))
  {
    seq(|evs|, i requires 0 <= i < |evs| => EffectOf(s.read(evs[i].delivery)))
  }

  /** Deliveries about one event ask the same of it. */
  ghost predicate Consistent(fs: seq<Effect>) {
    forall i, j, e :: 0 <= i < |fs| && 0 <= j < |fs| && About(fs[i], e) && About(fs[j], e) ==> fs[i] == fs[j]
  }

  /** The same is asked, in whatever order and however often. */
  ghost predicate SameSet(a: seq<Effect>, b: seq<Effect>) {
    forall f: Effect :: !f.Nothing? ==> (f in a <==> f in b)
  }

  /** No delivery comes while a lease from before the run holds its event. */
  ghost predicate AllUnleased(s: Settings, st: State, evs: seq<Event>) {
    forall i :: 0 <= i < |evs| ==>
      Unleased(RowAt(st, KeyOf(s, IdOf(s, evs[i].delivery))), evs[i].now, s.read(evs[i].delivery))
  }

  /** The effect last asked for event e. */
  function Asked(fs: seq<Effect>, e: Uuid): Option<Effect> {
    if fs == [] then None
    else if About(fs[|fs| - 1], e) then Some(fs[|fs| - 1])
    else Asked(fs[..|fs| - 1], e)
  }

  lemma {:induction false} AskedBySome(fs: seq<Effect>, e: Uuid)
    ensures Asked(fs, e).Some? ==> Asked(fs, e).value in fs && About(Asked(fs, e).value, e)
    ensures Asked(fs, e).None? ==> forall f :: f in fs ==> !About(f, e)
  {
    if fs != [] && !About(fs[|fs| - 1], e) {
      AskedBySome(fs[..|fs| - 1], e);
      assert forall f :: f in fs <==> f in fs[..|fs| - 1] || f == fs[|fs| - 1];
    }
  }

  lemma SameAsked(a: seq<Effect>, b: seq<Effect>, e: Uuid)
    requires SameSet(a, b) && Consistent(a) && Consistent(b)
    ensures Asked(a, e) == Asked(b, e)
  {
    AskedBySome(a, e);
    AskedBySome(b, e);
  }

  /** Event e stands as if what was asked of it had been done once, on the store at the start. */
  ghost predicate Stands(s: Settings, st0: State, asked: Option<Effect>, st: State, e: Uuid) {
    var row0, o0 := RowAt(st0, KeyOf(s, e)), ObservationAt(st0, e);
    match asked
    case None => RowAt(st, KeyOf(s, e)) == row0 && ObservationAt(st, e) == o0
    case Some(f) => About(f, e) && Settled(s, st, e, f, Settle(s, row0, o0, f))
  }

  lemma StepStands(s: Settings, st0: State, asked: Option<Effect>, st: State, ev: Event, e: Uuid)
    requires st.hooks == QUIET && ev.armed == QUIET && Stands(s, st0, asked, st, e)
    requires About(EffectOf(s.read(ev.delivery)), e) && CanBegin(s, st, s.read(ev.delivery))
    requires Unleased(RowAt(st0, KeyOf(s, e)), ev.now, s.read(ev.delivery))
    requires asked.Some? ==> asked.value == EffectOf(s.read(ev.delivery))
    ensures var f := EffectOf(s.read(ev.delivery));
      Step(s, st, ev).state.hooks == QUIET && Stands(s, st0, Some(f), Step(s, st, ev).state, e)
  {
    if asked.Some? {
      assert IsTerminal(RowAt(st, KeyOf(s, e)).value);
    }
    QuietStepSettles(s, st, ev, e);
  }

  lemma StepIsQuiet(s: Settings, st: State, ev: Event)
    requires st.hooks == QUIET && ev.armed == QUIET
    ensures Step(s, st, ev).state.hooks == QUIET
  {
    StepIsPlanned(s, st, ev);
    QuietPlanIsQuiet(s, RowAt(st, KeyOf(s, IdOf(s, ev.delivery))), IdOf(s, ev.delivery) in st.observations,
                     RoomOf(s, st), ev.delivery, ev.now, s.read(ev.delivery));
  }

  lemma QuietPlanIsQuiet(s: Settings, row: Option<InboxRow>, known: bool, room: nat, d: Delivery, now: Instant, w: Work)
    ensures var plan := PlanFor(s, row, known, room, QUIET, d, now, w); !plan.Raise? ==> plan.hooks == QUIET
  {
  }

  /** A work whose transaction begins within this room, and whose metadata leaves as much. */
  predicate FitsIn(s: Settings, w: Work, room: nat) {
    && (!w.Unhandled? ==> Depth(w) < room)
    && (w.Apply? ==> MetadataCopyable(w.message.safeMetadata, s.out.copyFrames - (room - 1)))
  }

  /** The store has this room, and no delivery takes it away. */
  ghost predicate AllFit(s: Settings, st: State, evs: seq<Event>, room: nat) {
    && 1 <= room <= 2 && room <= RoomOf(s, st)
    && forall i :: 0 <= i < |evs| ==> FitsIn(s, s.read(evs[i].delivery), room)
  }

  lemma RoomKeeps(out: Outside, os: Observations, e: Uuid, o: Observation, room: nat)
    requires 1 <= room <= 2 && room <= Room(out, os) && e !in os
    requires MetadataCopyable(o.safeMetadata, out.copyFrames - (room - 1))
    ensures room <= Room(out, os[e := o])
  {
    RoomMeans(out, os);
    RoomMeans(out, os[e := o]);
    CopiesWithOneMore(out, os, e, o, room - 1);
  }

  lemma StepFits(s: Settings, st: State, ev: Event, room: nat)
    requires 1 <= room <= 2 && room <= RoomOf(s, st) && FitsIn(s, s.read(ev.delivery), room)
    ensures room <= RoomOf(s, Step(s, st, ev).state)
  {
    var w := s.read(ev.delivery);
    StepObservations(s, st, ev);
    if w.Apply? && w.message.eventId !in st.observations {
      RoomKeeps(s.out, st.observations, w.message.eventId, Project(w.message, ev.now), room);
    }
  }

  /**
   In a failure-free run whose deliveries all fit every event stands as if what was asked of it had been done once.
   */
  lemma {:induction false} RunSettles(s: Settings, st: State, evs: seq<Event>, e: Uuid, room: nat)
    requires st.hooks == QUIET && Quiet(evs) && Consistent(EffectsOf(s, evs)) && AllUnleased(s, st, evs)
    requires AllFit(s, st, evs, room)
    ensures Run(s, st, evs).hooks == QUIET && Stands(s, st, Asked(EffectsOf(s, evs), e), Run(s, st, evs), e)
    ensures room <= RoomOf(s, Run(s, st, evs))
  {
    if evs != [] {
      var n := |evs| - 1;
      var init, ev, fs := evs[..n], evs[n], EffectsOf(s, evs);
      assert fs[..n] == EffectsOf(s, init);
      RunSettles(s, st, init, e, room);
      AskedBySome(fs[..n], e);
      OneMoreStands(s, st, Asked(fs[..n], e), Run(s, st, init), ev, e, room);
    }
  }

  lemma OneMoreStands(s: Settings, st0: State, asked: Option<Effect>, st: State, ev: Event, e: Uuid, room: nat)
    requires st.hooks == QUIET && ev.armed == QUIET && Stands(s, st0, asked, st, e)
    requires Unleased(RowAt(st0, KeyOf(s, IdOf(s, ev.delivery))), ev.now, s.read(ev.delivery))
    requires 1 <= room <= 2 && room <= RoomOf(s, st) && FitsIn(s, s.read(ev.delivery), room)
    requires asked.Some? && About(EffectOf(s.read(ev.delivery)), e) ==> asked.value == EffectOf(s.read(ev.delivery))
    ensures Step(s, st, ev).state.hooks == QUIET && room <= RoomOf(s, Step(s, st, ev).state)
    ensures var f := EffectOf(s.read(ev.delivery));
      Stands(s, st0, if About(f, e) then Some(f) else asked, Step(s, st, ev).state, e)
  {
    StepFits(s, st, ev, room);
    if About(EffectOf(s.read(ev.delivery)), e) {
      StepStands(s, st0, asked, st, ev, e);
    } else {
      OtherEventsUntouched(s, st, ev, e);
      StepIsQuiet(s, st, ev);
    }
  }

  /** Two stores that agree on a row's status and, but for the time of receipt, on its observation. */
  ghost predicate AgreeOn(s: Settings, a: State, b: State, e: Uuid) {
    && RowAt(a, KeyOf(s, e)).Some? == RowAt(b, KeyOf(s, e)).Some?
    && (RowAt(a, KeyOf(s, e)).Some? ==> RowAt(a, KeyOf(s, e)).value.status == RowAt(b, KeyOf(s, e)).value.status)
    && ObservationAt(a, e) == ObservationAt(b, e)
  }

  /**
   Confluence: failure-free runs over deliveries that ask the same, and of each event always the same, from the same
   store, in any order, at any times past the leases and with any repetition, end with the same statuses and the same
   observations up to the time of receipt -- as long as every transaction can begin and leaves the next one able to.
   */
  lemma OrderDoesNotMatter(s: Settings, st: State, a: seq<Event>, b: seq<Event>, e: Uuid, room: nat)
    requires st.hooks == QUIET && Quiet(a) && Quiet(b) && SameSet(EffectsOf(s, a), EffectsOf(s, b))
    requires Consistent(EffectsOf(s, a)) && AllUnleased(s, st, a) && AllUnleased(s, st, b)
    requires AllFit(s, st, a, room) && AllFit(s, st, b, room)
    ensures AgreeOn(s, Run(s, st, a), Run(s, st, b), e)
  {
    SameSetConsistent(EffectsOf(s, a), EffectsOf(s, b));
    RunSettles(s, st, a, e, room);
    RunSettles(s, st, b, e, room);
    SameAsked(EffectsOf(s, a), EffectsOf(s, b), e);
  }

  lemma SameSetConsistent(a: seq<Effect>, b: seq<Effect>)
    requires SameSet(a, b) && Consistent(a)
    ensures Consistent(b)
  {
    forall i, j, e | 0 <= i < |b| && 0 <= j < |b| && About(b[i], e) && About(b[j], e) ensures b[i] == b[j] {
      assert b[i] in a && b[j] in a;
    }
  }

  // ---------------------------------------------------------------- when order matters: two deliveries of one event

  lemma EmptyHasRoom(s: Settings)
    ensures RoomOf(s, EMPTY) == 2
  {
  }

  lemma RunOfTwo(s: Settings, x: Event, y: Event)
    ensures Run(s, EMPTY, [x, y]) == Step(s, Step(s, EMPTY, x).state, y).state
  {
    TwoEvents(s, EMPTY, x, y);
  }

  /** What two deliveries about one event leave behind: the second counts only as a rerun of a rejected first. */
  function Outlived(s: Settings, f: Effect, g: Effect): Verdict {
    if f.Projects? then Verdict(Processed, Some(f.observation))
    else if g.Projects? && s.policy.ReplayReset? && !ShouldQuarantine(Transient, 2, s.maxAttempts) then
      Verdict(Processed, Some(g.observation))
    else Verdict(Quarantined, None)
  }

  /** Event e stands in the store with a verdict. */
  ghost predicate StandsWith(s: Settings, st: State, e: Uuid, v: Verdict) {
    var row := RowAt(st, KeyOf(s, e));
    row.Some? && row.value.status == v.status && ObservationAt(st, e) == v.observation
  }

  lemma FirstLeaves(s: Settings, x: Event, e: Uuid)
    requires x.armed == QUIET && About(EffectOf(s.read(x.delivery)), e)
    ensures var f, after := EffectOf(s.read(x.delivery)), Step(s, EMPTY, x).state;
      && after.hooks == QUIET && StandsWith(s, after, e, Settle(s, None, None, f))
      && RowAt(after, KeyOf(s, e)).value.attemptCount == 1
      && (f.Rejects? ==> RoomOf(s, after) == 2)
  {
    EmptyHasRoom(s);
    QuietStepSettles(s, EMPTY, x, e);
    StepIsPlanned(s, EMPTY, x);
    StepObservations(s, EMPTY, x);
  }

  lemma SecondLeaves(s: Settings, st: State, y: Event, e: Uuid, f: Effect)
    requires st.hooks == QUIET && y.armed == QUIET && About(EffectOf(s.read(y.delivery)), e)
    requires !f.Nothing? && StandsWith(s, st, e, Settle(s, None, None, f))
    requires RowAt(st, KeyOf(s, e)).value.attemptCount == 1 && (f.Rejects? ==> RoomOf(s, st) == 2)
    ensures StandsWith(s, Step(s, st, y).state, e, Outlived(s, f, EffectOf(s.read(y.delivery))))
  {
    if CanBegin(s, st, s.read(y.delivery)) {
      QuietStepSettles(s, st, y, e);
    } else {
      CannotBeginIsSilent(s, st, y);
    }
  }

  lemma TwoLeave(s: Settings, x: Event, y: Event, e: Uuid)
    requires x.armed == QUIET && y.armed == QUIET
    requires About(EffectOf(s.read(x.delivery)), e) && About(EffectOf(s.read(y.delivery)), e)
    ensures StandsWith(s, Run(s, EMPTY, [x, y]), e,
                       Outlived(s, EffectOf(s.read(x.delivery)), EffectOf(s.read(y.delivery))))
  {
    RunOfTwo(s, x, y);
    FirstLeaves(s, x, e);
    SecondLeaves(s, Step(s, EMPTY, x).state, y, e, EffectOf(s.read(x.delivery)));
  }

  /**
   Two failure-free deliveries about one event leave the same store in either order if and only if they ask the same of
   it, or one is a rejection that the other's rerun may still replace.
   */
  lemma PairsCommuteExactly(s: Settings, x: Event, y: Event, e: Uuid)
    requires x.armed == QUIET && y.armed == QUIET
    requires About(EffectOf(s.read(x.delivery)), e) && About(EffectOf(s.read(y.delivery)), e)
    ensures var f, g := EffectOf(s.read(x.delivery)), EffectOf(s.read(y.delivery));
      AgreeOn(s, Run(s, EMPTY, [x, y]), Run(s, EMPTY, [y, x]), e) <==>
        || f == g
        || (f.Projects? != g.Projects? && s.policy.ReplayReset? && !ShouldQuarantine(Transient, 2, s.maxAttempts))
  {
    TwoLeave(s, x, y, e);
    TwoLeave(s, y, x, e);
  }

  lemma ForeignSubjectIsRejected(s: Settings, e: Envelope.EventEnvelope, d: Delivery, subject: string)
    requires subject != s.contract.subject
    ensures WorkOfEnvelope(s, e, d.(subject := subject)).Refuse?
    ensures WorkOfEnvelope(s, e, d.(subject := subject)).header.eventId == e.eventId
  {
  }

  lemma ReadsAs(s: Settings, d: Delivery) returns (e: Envelope.EventEnvelope)
    requires WorkOf(s, d).Apply?
    ensures WorkOf(s, d).message.eventId == e.eventId
    ensures Validation.HasRowIdentity(s.out, s.contract, WorkOf(s, d).message)
    ensures forall t :: WorkOf(s, d.(subject := t)) == WorkOfEnvelope(s, e, d.(subject := t))
  {
    e := ParsedBody(s, s.out.decodeJson(d.body).wire).value;
    Validation.AcceptedHasRowIdentity(s.out, s.contract, e, d);
  }

  lemma OnAnotherSubject(s: Settings, d: Delivery, subject: string)
    requires WorkOf(s, d).Apply? && subject != s.contract.subject
    ensures EffectOf(WorkOf(s, d.(subject := subject))) == Rejects(WorkOf(s, d).message.eventId)
  {
    var e := ReadsAs(s, d);
    ForeignSubjectIsRejected(s, e, d, subject);
  }

  /**
   Such pairs exist: any valid message, delivered once more on another subject, is rejected under its own event id.
   */
  lemma ConflictingWorkIsOrdered(s: Settings, x: Event, y: Event, subject: string)
    requires x.armed == QUIET && y.armed == QUIET && s.read(x.delivery) == WorkOf(s, x.delivery)
    requires s.read(y.delivery) == WorkOf(s, y.delivery) && y.delivery == x.delivery.(subject := subject)
    requires s.read(x.delivery).Apply? && subject != s.contract.subject
    ensures var e := s.read(x.delivery).message.eventId;
      && EffectOf(s.read(y.delivery)) == Rejects(e)
      && (AgreeOn(s, Run(s, EMPTY, [x, y]), Run(s, EMPTY, [y, x]), e) <==>
            s.policy.ReplayReset? && !ShouldQuarantine(Transient, 2, s.maxAttempts))
  {
    OnAnotherSubject(s, x.delivery, subject);
    PairsCommuteExactly(s, x, y, s.read(x.delivery).message.eventId);
  }

  // ---------------------------------------------------------------- when order matters: deliveries of two events

  /** After the first work is done on the empty store, the second one's transaction can still begin. */
  predicate LeavesRoomFor(s: Settings, first: Work, second: Work) {
    first.Apply? ==> MetadataCopyable(first.message.safeMetadata, s.out.copyFrames - Depth(second))
  }

  lemma RoomAfterFirst(s: Settings, x: Event, e: Uuid, w: Work)
    requires x.armed == QUIET && About(EffectOf(s.read(x.delivery)), e) && !w.Unhandled?
    ensures CanBegin(s, Step(s, EMPTY, x).state, w) <==> LeavesRoomFor(s, s.read(x.delivery), w)
  {
    var m := s.read(x.delivery);
    FirstLeaves(s, x, e);
    StepObservations(s, EMPTY, x);
    EmptyHasRoom(s);
    if m.Apply? {
      RoomWithOneMore(s.out, EMPTY.observations, e, Project(m.message, x.now));
    }
  }

  ghost predicate Untouched(s: Settings, st: State, e: Uuid) {
    RowAt(st, KeyOf(s, e)).None? && ObservationAt(st, e).None?
  }

  /** Two deliveries about different events: the first is settled, and the second if it could begin. */
  lemma StrangersLeave(s: Settings, x: Event, y: Event, e1: Uuid, e2: Uuid)
    requires x.armed == QUIET && y.armed == QUIET && e1 != e2
    requires About(EffectOf(s.read(x.delivery)), e1) && About(EffectOf(s.read(y.delivery)), e2)
    ensures var st := Run(s, EMPTY, [x, y]);
      && StandsWith(s, st, e1, Settle(s, None, None, EffectOf(s.read(x.delivery))))
      && (if LeavesRoomFor(s, s.read(x.delivery), s.read(y.delivery))
          then StandsWith(s, st, e2, Settle(s, None, None, EffectOf(s.read(y.delivery)))) else Untouched(s, st, e2))
  {
    var mid := Step(s, EMPTY, x).state;
    RunOfTwo(s, x, y);
    FirstLeaves(s, x, e1);
    OtherEventsUntouched(s, EMPTY, x, e2);
    OtherEventsUntouched(s, mid, y, e1);
    RoomAfterFirst(s, x, e1, s.read(y.delivery));
    if CanBegin(s, mid, s.read(y.delivery)) {
      QuietStepSettles(s, mid, y, e2);
    } else {
      CannotBeginIsSilent(s, mid, y);
    }
  }

  lemma OthersUntouched(s: Settings, x: Event, y: Event, e: Uuid)
    requires !About(EffectOf(s.read(x.delivery)), e) && !About(EffectOf(s.read(y.delivery)), e)
    ensures Untouched(s, Run(s, EMPTY, [x, y]), e)
  {
    RunOfTwo(s, x, y);
    OtherEventsUntouched(s, EMPTY, x, e);
    OtherEventsUntouched(s, Step(s, EMPTY, x).state, y, e);
  }

  lemma StandsOrNot(s: Settings, a: State, b: State, e: Uuid, v: Verdict, there: bool)
    requires StandsWith(s, a, e, v) && if there then StandsWith(s, b, e, v) else Untouched(s, b, e)
    ensures AgreeOn(s, a, b, e) <==> there
    ensures AgreeOn(s, b, a, e) <==> there
  {
  }

  lemma StandingAgrees(s: Settings, a: State, b: State, e1: Uuid, e2: Uuid, v1: Verdict, v2: Verdict, both: bool,
                       back: bool)
    requires StandsWith(s, a, e1, v1) && if both then StandsWith(s, a, e2, v2) else Untouched(s, a, e2)
    requires StandsWith(s, b, e2, v2) && if back then StandsWith(s, b, e1, v1) else Untouched(s, b, e1)
    requires forall e :: e != e1 && e != e2 ==> Untouched(s, a, e) && Untouched(s, b, e)
    ensures (forall e :: AgreeOn(s, a, b, e)) <==> both && back
  {
    StandsOrNot(s, a, b, e1, v1, back);
    StandsOrNot(s, b, a, e2, v2, both);
    forall e | e != e1 && e != e2 ensures AgreeOn(s, a, b, e) {
      assert Untouched(s, a, e) && Untouched(s, b, e);
    }
  }

  /**
   Two failure-free deliveries of different events commute if and only if neither stores metadata that keeps the other's
   transaction from beginning; otherwise the event that comes second leaves no row at all.
   */
  lemma StrangersCommuteExactly(s: Settings, x: Event, y: Event, e1: Uuid, e2: Uuid)
    requires x.armed == QUIET && y.armed == QUIET && e1 != e2
    requires About(EffectOf(s.read(x.delivery)), e1) && About(EffectOf(s.read(y.delivery)), e2)
    ensures var w, v := s.read(x.delivery), s.read(y.delivery);
      (forall e :: AgreeOn(s, Run(s, EMPTY, [x, y]), Run(s, EMPTY, [y, x]), e)) <==>
        LeavesRoomFor(s, w, v) && LeavesRoomFor(s, v, w)
  {
    var w, v := s.read(x.delivery), s.read(y.delivery);
    StrangersLeave(s, x, y, e1, e2);
    StrangersLeave(s, y, x, e2, e1);
    forall e | e != e1 && e != e2
      ensures Untouched(s, Run(s, EMPTY, [x, y]), e) && Untouched(s, Run(s, EMPTY, [y, x]), e)
    {
      OthersUntouched(s, x, y, e);
      OthersUntouched(s, y, x, e);
    }
    StandingAgrees(s, Run(s, EMPTY, [x, y]), Run(s, EMPTY, [y, x]), e1, e2, Settle(s, None, None, EffectOf(w)),
                   Settle(s, None, None, EffectOf(v)), LeavesRoomFor(s, w, v), LeavesRoomFor(s, v, w));
  }

  // ---------------------------------------------------------------- one observation per source row

  /** Every stored observation carries the identity of its source row and is stored under it. */
  ghost predicate RowIdentityHolds(s: Settings, st: State) {
    forall e :: e in st.observations ==>
      var o := st.observations[e];
      && o.eventId == e && o.auditEntryId == o.sourcePk
      && ObservationEventId(s.out.uuid5, s.contract.namespace, s.contract.sourceSystem, s.contract.sourceTable,
                            s.out.codec.formatUuid(o.sourcePk)) == Some(e)
  }

  /** The deliveries of a run are read as the code reads them. */
  ghost predicate ReadsBodies(s: Settings, evs: seq<Event>) {
    forall i :: 0 <= i < |evs| ==> s.read(evs[i].delivery) == WorkOf(s, evs[i].delivery)
  }

  lemma StepKeepsRowIdentity(s: Settings, st: State, ev: Event)
    requires RowIdentityHolds(s, st)
    requires s.read(ev.delivery).Apply? ==> Validation.HasRowIdentity(s.out, s.contract, s.read(ev.delivery).message)
    ensures RowIdentityHolds(s, Step(s, st, ev).state)
  {
    var after := Step(s, st, ev).state;
    StepRespectsStore(s, st, ev);
    forall e | e in after.observations && e !in st.observations
      ensures s.read(ev.delivery).Apply? && after.observations[e] == Project(s.read(ev.delivery).message, ev.now)
        && s.read(ev.delivery).message.eventId == e
    {
      StepWrites(s, st, ev, e);
    }
  }

  /** After every run there is at most one observation per source row, and it is the one under the row's identity. */
  lemma {:induction false} OneObservationPerSourceRow(s: Settings, evs: seq<Event>)
    requires ReadsBodies(s, evs)
    ensures RowIdentityHolds(s, Run(s, EMPTY, evs))
    ensures var o := Run(s, EMPTY, evs).observations;
      forall d, e :: d in o && e in o && o[d].auditEntryId == o[e].auditEntryId ==> d == e
  {
    if evs != [] {
      var last := evs[|evs| - 1].delivery;
      OneObservationPerSourceRow(s, evs[..|evs| - 1]);
      if s.read(last).Apply? {
        var _ := ReadsAs(s, last);
      }
      StepKeepsRowIdentity(s, Run(s, EMPTY, evs[..|evs| - 1]), evs[|evs| - 1]);
    }
  }

  /** Looking an observation up by its audit entry has one answer, in whatever order the store is scanned. */
  lemma LookupIsDeterminate(s: Settings, evs: seq<Event>, a: Observation, b: Observation)
    requires ReadsBodies(s, evs)
    requires a in Run(s, EMPTY, evs).observations.Values && b in Run(s, EMPTY, evs).observations.Values
    requires a.auditEntryId == b.auditEntryId
    ensures a == b
  {
    OneObservationPerSourceRow(s, evs);
  }
}
