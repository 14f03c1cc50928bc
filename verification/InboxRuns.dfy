/**
 What the consumer promises over whole runs of deliveries with duplicates, faults and crashes, whatever reading a
 delivery comes to; the code's own reading is WorkOf.
 */
module InboxRuns {
  import opened Wrappers
  import opened Json
  import opened Messaging
  import opened AuditTypes
  import opened InboxSpec

  /** One delivery by the broker: the message, the clock, and the failures armed just before it. */
  datatype Event = Event(delivery: Delivery, now: Instant, armed: Hooks)

  /** A hook already armed stays armed. */
  function Arm(h: Hooks, a: Hooks): Hooks {
    Hooks(h.failProjection || a.failProjection, if a.poisonProjection.Some? then a.poisonProjection
          else h.poisonProjection,
          h.failQuarantine || a.failQuarantine, h.crashBeforeAck || a.crashBeforeAck)
  }

  function Armed(st: State, ev: Event): State {
    st.(hooks := Arm(st.hooks, ev.armed))
  }

  function Step(s: Settings, st: State, ev: Event): Handling {
    Perform(s, Armed(st, ev), ev.delivery, ev.now, s.read(ev.delivery))
  }

  function Run(s: Settings, st: State, evs: seq<Event>): State {
    if evs == [] then st else Step(s, Run(s, st, evs[..|evs| - 1]), evs[|evs| - 1]).state
  }

  /** The handling of event number i. */
  function At(s: Settings, st: State, evs: seq<Event>, i: nat): Handling
    requires i < |evs|
  {
    Step(s, Run(s, st, evs[..i]), evs[i])
  }

  function IdOf(s: Settings, d: Delivery): Uuid {
    EventIdOf(s.read(d))
  }

  lemma HooksDoNotMatter(s: Settings, st: State, hooks: Hooks, k: InboxKey, h: Handling)
    requires StepRespects(s, st.(hooks := hooks), k, h)
    ensures StepRespects(s, st, k, h)
  {
  }

  lemma StepRespectsStore(s: Settings, st: State, ev: Event)
    ensures StepRespects(s, st, KeyOf(s, IdOf(s, ev.delivery)), Step(s, st, ev))
  {
    var hooks := Arm(st.hooks, ev.armed);
    HandleRespects(s, st.(hooks := hooks), ev.delivery, ev.now, s.read(ev.delivery));
    HooksDoNotMatter(s, st, hooks, KeyOf(s, IdOf(s, ev.delivery)), Step(s, st, ev));
  }

  lemma RunExtends(s: Settings, st: State, evs: seq<Event>, i: nat)
    requires i < |evs|
    ensures Run(s, st, evs[..i + 1]) == At(s, st, evs, i).state
  {
    assert evs[..i + 1][..i] == evs[..i];
  }

  /** What every step from i to n keeps holds at n if it holds at i. */
  lemma {:induction false} RunKeeps(s: Settings, st: State, evs: seq<Event>, i: nat, n: nat, holds: State -> bool)
    requires i <= n <= |evs| && holds(Run(s, st, evs[..i]))
    requires forall x: State, k: nat :: i <= k < n && holds(x) ==> holds(Step(s, x, evs[k]).state)
    ensures holds(Run(s, st, evs[..n]))
    decreases n
  {
    if i < n {
      RunKeeps(s, st, evs, i, n - 1, holds);
      RunExtends(s, st, evs, n - 1);
    }
  }

  // ---------------------------------------------------------------- whole runs

  /** Later in a run: every row and observation is still there; PROCESSED rows and observations are unchanged. */
  ghost predicate Preserves(s: Settings, a: State, b: State) {
    && (forall k :: k in a.inbox ==> k in b.inbox)
    && (forall k :: k in a.inbox && a.inbox[k].status == Processed ==> b.inbox[k] == a.inbox[k])
    && (forall k :: k in a.inbox && a.inbox[k].status == Quarantined && s.policy.AckTerminal? ==>
          b.inbox[k].status == Quarantined)
    && (forall e :: e in a.observations ==> e in b.observations && b.observations[e] == a.observations[e])
  }

  lemma StepThenPreserves(s: Settings, a: State, k: InboxKey, h: Handling, b: State)
    requires StepRespects(s, a, k, h) && Preserves(s, h.state, b)
    ensures Preserves(s, a, b)
  {
  }

  /** Terminal states are terminal over every run, whatever the deliveries, the clock and the faults. */
  lemma {:induction false} TerminalForever(s: Settings, st: State, evs: seq<Event>, i: nat)
    requires i <= |evs|
    ensures Preserves(s, Run(s, st, evs[..i]), Run(s, st, evs))
    decreases |evs| - i
  {
    if i == |evs| {
      assert evs[..i] == evs;
    } else {
      RunExtends(s, st, evs, i);
      StepRespectsStore(s, Run(s, st, evs[..i]), evs[i]);
      TerminalForever(s, st, evs, i + 1);
      StepThenPreserves(s, Run(s, st, evs[..i]), KeyOf(s, IdOf(s, evs[i].delivery)), At(s, st, evs, i),
                        Run(s, st, evs));
    }
  }

  /** A row that was final when its ACK was sent, and still is at the end. */
  predicate Kept(s: Settings, k: InboxKey, sent: State, end: State) {
    && k in sent.inbox && IsTerminal(sent.inbox[k]) && k in end.inbox
    && (sent.inbox[k].status == Processed || s.policy.AckTerminal? ==> end.inbox[k].status == sent.inbox[k].status)
  }

  /** Over every run, each ACK is sent when the event's committed row is final, and it is then final for good. */
  lemma EveryAckIsDurable(s: Settings, st: State, evs: seq<Event>, i: nat)
    requires i < |evs|
    ensures Acked(At(s, st, evs, i)) ==>
      Kept(s, KeyOf(s, IdOf(s, evs[i].delivery)), At(s, st, evs, i).state, Run(s, st, evs))
  {
    StepRespectsStore(s, Run(s, st, evs[..i]), evs[i]);
    RunExtends(s, st, evs, i);
    TerminalForever(s, st, evs, i + 1);
  }

  /** Over every run, a handling that ends in NAK or DEFER changes neither inbox nor observations. */
  lemma EveryNakLeavesStore(s: Settings, st: State, evs: seq<Event>, i: nat)
    requires i < |evs|
    ensures Sent(Nak) in At(s, st, evs, i).log || Sent(Defer) in At(s, st, evs, i).log ==>
      SameStore(Run(s, st, evs[..i + 1]), Run(s, st, evs[..i]))
  {
    StepRespectsStore(s, Run(s, st, evs[..i]), evs[i]);
    RunExtends(s, st, evs, i);
  }

  // ---------------------------------------------------------------- exactly-once projection

  /** What holds of every store reached from the empty one. */
  ghost predicate Projected(s: Settings, st: State) {
    && (forall k :: k in st.inbox ==> k.consumerName == s.consumerName)
    && (forall k :: k in st.inbox ==>
          IsTerminal(st.inbox[k]) && st.inbox[k].processingOwner.None? && st.inbox[k].leaseUntil.None?)
    && (forall e :: e in st.observations <==> KeyOf(s, e) in st.inbox && st.inbox[KeyOf(s, e)].status == Processed)
  }

  lemma SavingKeepsProjected(s: Settings, st: State, id: Uuid, row: InboxRow, after: State)
    requires Projected(s, st) && after.inbox == st.inbox[KeyOf(s, id) := row]
    requires IsTerminal(row) && row.processingOwner.None? && row.leaseUntil.None?
    requires KeyOf(s, id) in st.inbox ==> st.inbox[KeyOf(s, id)].status != Processed
    requires forall e :: e in after.observations <==> e in st.observations || (e == id && row.status == Processed)
    ensures Projected(s, after)
  {
    forall e
      ensures e in after.observations <==> KeyOf(s, e) in after.inbox && after.inbox[KeyOf(s, e)].status == Processed
    {
      assert e in st.observations <==> KeyOf(s, e) in st.inbox && st.inbox[KeyOf(s, e)].status == Processed;
    }
  }

  lemma SameStoreKeepsProjected(s: Settings, st: State, after: State)
    requires Projected(s, st) && SameStore(after, st)
    ensures Projected(s, after)
  {
  }

  /** What executing a plan makes of the tables. */
  lemma ExecuteTables(st: State, k: InboxKey, plan: Plan)
    ensures var after := Execute(st, k, plan).state;
      if plan.Save? then
        && after.inbox == st.inbox[k := plan.row]
        && forall e :: e in after.observations <==>
             e in st.observations || (e == k.eventId && plan.observation.Some?)
      else SameStore(after, st)
  {
  }

  lemma ExecuteKeepsProjected(s: Settings, st: State, id: Uuid, now: Instant, w: Work, plan: Plan)
    requires Projected(s, st) && PlanRespects(s, RowAt(st, KeyOf(s, id)), now, w, plan)
    ensures Projected(s, Execute(st, KeyOf(s, id), plan).state)
  {
    ExecuteTables(st, KeyOf(s, id), plan);
    if plan.Save? {
      SavingKeepsProjected(s, st, id, plan.row, Execute(st, KeyOf(s, id), plan).state);
    } else {
      SameStoreKeepsProjected(s, st, Execute(st, KeyOf(s, id), plan).state);
    }
  }

  /** The plan of one event in a run. */
  function PlanAt(s: Settings, st: State, ev: Event): Plan {
    PlanOf(s, Armed(st, ev), ev.delivery, ev.now, s.read(ev.delivery))
  }

  lemma StepIsPlanned(s: Settings, st: State, ev: Event)
    ensures var k := KeyOf(s, IdOf(s, ev.delivery));
      && Step(s, st, ev) == Execute(Armed(st, ev), k, PlanAt(s, st, ev))
      && PlanRespects(s, RowAt(st, k), ev.now, s.read(ev.delivery), PlanAt(s, st, ev))
  {
    var w := s.read(ev.delivery);
    PlansRespect(s, RowAt(st, KeyOf(s, EventIdOf(w))), EventIdOf(w) in st.observations, Room(s.out, st.observations),
                 Arm(st.hooks, ev.armed), ev.delivery, ev.now, w);
  }

  lemma {:induction false} RunIsProjected(s: Settings, evs: seq<Event>)
    ensures Projected(s, Run(s, EMPTY, evs))
  {
    if evs != [] {
      var before, ev := Run(s, EMPTY, evs[..|evs| - 1]), evs[|evs| - 1];
      RunIsProjected(s, evs[..|evs| - 1]);
      StepIsPlanned(s, before, ev);
      ExecuteKeepsProjected(s, Armed(before, ev), IdOf(s, ev.delivery), ev.now, s.read(ev.delivery),
                            PlanAt(s, before, ev));
    }
  }

  /** An observation that appears in a step is the projection of that step's own valid delivery. */
  ghost predicate WrittenAt(s: Settings, st: State, evs: seq<Event>, e: Uuid, i: nat) {
    && i < |evs|
    && e !in Run(s, st, evs[..i]).observations
    && e in Run(s, st, evs[..i + 1]).observations
    && s.read(evs[i].delivery).Apply?
    && s.read(evs[i].delivery).message.eventId == e
    && Run(s, st, evs[..i + 1]).observations[e] == Project(s.read(evs[i].delivery).message, evs[i].now)
  }

  lemma StepWrites(s: Settings, st: State, ev: Event, e: Uuid)
    requires e !in st.observations && e in Step(s, st, ev).state.observations
    ensures var w := s.read(ev.delivery);
      w.Apply? && w.message.eventId == e && Step(s, st, ev).state.observations[e] == Project(w.message, ev.now)
  {
    StepIsPlanned(s, st, ev);
  }

  lemma LastIsWriter(s: Settings, st: State, evs: seq<Event>, e: Uuid, n: nat)
    requires n < |evs| && e !in Run(s, st, evs[..n]).observations && e in Run(s, st, evs[..n + 1]).observations
    ensures WrittenAt(s, st, evs, e, n)
  {
    RunExtends(s, st, evs, n);
    StepWrites(s, Run(s, st, evs[..n]), evs[n], e);
  }

  /** A history that starts false and ends true turns true at some step. */
  lemma {:induction false} Crossing(p: seq<bool>) returns (i: nat)
    requires |p| > 0 && !p[0] && p[|p| - 1]
    ensures i + 1 < |p| && !p[i] && p[i + 1]
  {
    if p[1] {
      i := 0;
    } else {
      var j := Crossing(p[1..]);
      i := j + 1;
    }
  }

  lemma EveryObservationHasAWriter(s: Settings, st: State, evs: seq<Event>, e: Uuid) returns (i: nat)
    requires e !in st.observations && e in Run(s, st, evs).observations
    ensures WrittenAt(s, st, evs, e, i)
  {
    var p := seq(|evs| + 1, n requires 0 <= n <= |evs| => e in Run(s, st, evs[..n]).observations);
    assert evs[..0] == [] && evs[..|evs|] == evs;
    i := Crossing(p);
    LastIsWriter(s, st, evs, e, i);
  }

  /** Once written, an observation is there before every later step, so no later step can write it again. */
  lemma NoSecondWriter(s: Settings, st: State, evs: seq<Event>, e: Uuid, i: nat, j: nat)
    requires WrittenAt(s, st, evs, e, i) && i < j <= |evs|
    ensures e in Run(s, st, evs[..j]).observations
  {
    var upTo := evs[..j];
    assert upTo[..i + 1] == evs[..i + 1];
    TerminalForever(s, st, upTo, i + 1);
  }

  /** Step i alone wrote the observation of e, and what it wrote is what is there at the end. */
  ghost predicate SoleWriter(s: Settings, evs: seq<Event>, e: Uuid, i: nat) {
    && WrittenAt(s, EMPTY, evs, e, i)
    && e in Run(s, EMPTY, evs).observations
    && Run(s, EMPTY, evs).observations[e] == Run(s, EMPTY, evs[..i + 1]).observations[e]
    && forall j :: WrittenAt(s, EMPTY, evs, e, j) ==> j == i
  }

  /**
   Exactly-once projection. After any run from the empty store the observed events are exactly those whose row is
   PROCESSED; each observation was written by one step and only one, is the projection of that step's delivery -- the
   first to commit for its event -- and was never overwritten.
   */
  lemma ExactlyOnce(s: Settings, evs: seq<Event>, e: Uuid)
    ensures var st := Run(s, EMPTY, evs);
      && (e in st.observations <==> KeyOf(s, e) in st.inbox && st.inbox[KeyOf(s, e)].status == Processed)
      && (e in st.observations ==> exists i :: SoleWriter(s, evs, e, i))
  {
    RunIsProjected(s, evs);
    if e in Run(s, EMPTY, evs).observations {
      var i := EveryObservationHasAWriter(s, EMPTY, evs, e);
      TerminalForever(s, EMPTY, evs, i + 1);
      forall j | WrittenAt(s, EMPTY, evs, e, j) ensures j == i {
        if i < j {
          NoSecondWriter(s, EMPTY, evs, e, i, j);
        } else if j < i {
          NoSecondWriter(s, EMPTY, evs, e, j, i);
        }
      }
      assert SoleWriter(s, evs, e, i);
    }
  }

  // ---------------------------------------------------------------- attempts

  ghost predicate AttemptsWithin(st: State, bound: int) {
    forall k :: k in st.inbox ==> st.inbox[k].attemptCount <= bound
  }

  lemma ApplyAttempts(s: Settings, row: Option<InboxRow>, known: bool, room: nat, hooks: Hooks, d: Delivery,
                      now: Instant, m: Message, bound: int)
    requires s.maxAttempts > 0 && bound >= 1 && bound >= s.maxAttempts - 1
    requires row.Some? ==> row.value.attemptCount <= bound
    ensures var plan := ApplyPlan(s, row, known, room, hooks, d, now, m); plan.Save? ==> plan.row.attemptCount <= bound
  {
    if row.Some? && ShouldQuarantine(Transient, row.value.attemptCount + 1, s.maxAttempts) {
      var plan := DuplicatePlan(s, row.value, room, hooks, d, now, m, known);
      assert plan.Save? ==> plan.row.attemptCount == row.value.attemptCount;
    }
  }

  lemma PlanAttempts(s: Settings, row: Option<InboxRow>, known: bool, room: nat, hooks: Hooks, d: Delivery,
                     now: Instant, w: Work, bound: int)
    requires s.maxAttempts > 0 && bound >= 1 && bound >= s.maxAttempts - 1
    requires row.Some? ==> row.value.attemptCount <= bound
    ensures var plan := PlanFor(s, row, known, room, hooks, d, now, w);
      plan.Save? ==> plan.row.attemptCount <= bound
  {
    if w.Apply? {
      ApplyAttempts(s, row, known, room, hooks, d, now, w.message, bound);
    }
  }

  lemma ExecuteAttempts(st: State, k: InboxKey, plan: Plan, bound: int)
    requires AttemptsWithin(st, bound) && (plan.Save? ==> plan.row.attemptCount <= bound)
    ensures AttemptsWithin(Execute(st, k, plan).state, bound)
  {
  }

  /** With a positive limit no row of any run, from any store, counts more attempts than max(seed, limit - 1, 1). */
  lemma {:induction false} AttemptsAreBounded(s: Settings, st: State, evs: seq<Event>, bound: int)
    requires s.maxAttempts > 0 && bound >= 1 && bound >= s.maxAttempts - 1 && AttemptsWithin(st, bound)
    ensures AttemptsWithin(Run(s, st, evs), bound)
  {
    if evs != [] {
      var before, ev := Run(s, st, evs[..|evs| - 1]), evs[|evs| - 1];
      AttemptsAreBounded(s, st, evs[..|evs| - 1], bound);
      var k := KeyOf(s, IdOf(s, ev.delivery));
      StepIsPlanned(s, before, ev);
      PlanAttempts(s, RowAt(before, k), k.eventId in before.observations, Room(s.out, before.observations),
                   Arm(before.hooks, ev.armed), ev.delivery, ev.now, s.read(ev.delivery), bound);
      ExecuteAttempts(Armed(before, ev), k, PlanAt(s, before, ev), bound);
    }
  }
}
