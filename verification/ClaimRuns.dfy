/**
 Whole runs of the claims service: every state is sound, outcomes are final, and a decision has a review behind it.
 */
module ClaimRuns {
  import opened Wrappers
  import opened Json
  import opened Timestamps
  import opened Claims

  datatype Command =
    | File(filing: Filing, id: Uuid, now: Moment)
    | Act(reference: string, cmd: ClaimCommand, at: nat)
    | Report(report: IncidentReport, id: Uuid, now: Moment)
    | ActOnIncident(reference: string, incidentCmd: IncidentCommand, at: nat)
    | RequestReturn(trackingCode: string)

  function Step(s: State, c: Command, isCode: string -> bool): State {
    match c
    case File(f, id, now) => FileClaim(s, f, id, now, isCode).0
    case Act(reference, cmd, at) => OnClaim(s, reference, cmd, at).0
    case Report(r, id, now) => ReportIncident(s, r, id, now, isCode).0
    case ActOnIncident(reference, cmd, at) => OnIncident(s, reference, cmd, at).0
    case RequestReturn(_) => s
  }

  /** A return after acceptance at the door is always refused. */
  predicate Accepted(s: State, c: Command, isCode: string -> bool) {
    match c
    case File(f, id, now) => FileClaim(s, f, id, now, isCode).1.Ok?
    case Act(reference, cmd, at) => OnClaim(s, reference, cmd, at).1.Ok?
    case Report(r, id, now) => ReportIncident(s, r, id, now, isCode).1.Ok?
    case ActOnIncident(reference, cmd, at) => OnIncident(s, reference, cmd, at).1.Ok?
    case RequestReturn(_) => false
  }

  /** The clock prints days as eight digits, and a new row's uuid4 is no row's yet. */
  predicate Possible(s: State, c: Command) {
    match c
    case File(_, id, now) => IsDay(now.day) && forall d :: d in s.claims ==> d.id != id
    case Report(_, id, now) => IsDay(now.day) && forall d :: d in s.incidents ==> d.id != id
    case _ => true
  }

  /** A run from the empty database: states[n] is the state before command n. */
  ghost predicate IsRun(run: seq<Command>, states: seq<State>, isCode: string -> bool) {
    && |states| == |run| + 1 && states[0] == EMPTY
    && forall n :: 0 <= n < |run| ==> Possible(states[n], run[n]) && states[n + 1] == Step(states[n], run[n], isCode)
  }

  /** A command keeps every constraint, and one that is refused changes nothing, although rollback undoes nothing. */
  lemma StepIsSound(s: State, c: Command, isCode: string -> bool)
    requires Sound(s) && Possible(s, c)
    ensures Sound(Step(s, c, isCode))
    ensures !Accepted(s, c, isCode) ==> Step(s, c, isCode) == s
  {
    match c
    case File(f, id, now) => FileClaimKeeps(s, f, id, now, isCode);
    case Act(reference, cmd, at) => OnClaimKeeps(s, reference, cmd, at);
    case Report(r, id, now) => ReportIncidentKeeps(s, r, id, now, isCode);
    case ActOnIncident(reference, cmd, at) => OnIncidentKeeps(s, reference, cmd, at);
    case RequestReturn(_) =>
  }

  lemma {:induction false} SoundnessSpreads(states: seq<State>, n: nat)
    requires n < |states| && Sound(states[0])
    requires forall k: nat :: k + 1 < |states| && Sound(states[k]) ==> Sound(states[k + 1])
    ensures Sound(states[n])
  {
    if n > 0 {
      SoundnessSpreads(states, n - 1);
    }
  }

  /** From an empty database every reachable state meets every constraint of the migration. */
  lemma EveryStateIsSound(run: seq<Command>, states: seq<State>, n: nat, isCode: string -> bool)
    requires IsRun(run, states, isCode) && n <= |run|
    ensures Sound(states[n])
  {
    forall k: nat | k + 1 < |states| && Sound(states[k]) ensures Sound(states[k + 1]) {
      StepIsSound(states[k], run[k], isCode);
    }
    SoundnessSpreads(states, n);
  }

  // ---------------------------------------------------------------- what is final

  /** What a command may do to a claim row: a decided row is frozen, a withdrawn one stays withdrawn. */
  predicate ClaimRowStep(a: Claim, b: Claim) {
    && SameClaim(a, b) && a.version <= b.version
    && (IsDecided(a.status) ==> b == a)
    && (a.status.Withdrawn? ==> b.status.Withdrawn? && b.withdrawnAt == a.withdrawnAt)
  }

  predicate IncidentRowStep(a: Incident, b: Incident) {
    && a.id == b.id && a.reference == b.reference && a.kind == b.kind && a.trackingCode == b.trackingCode
    && a.version <= b.version
    && (a.status.Resolved? ==> b == a)
  }

  /** Rows never go away or change places. */
  predicate Grows(s: State, t: State) {
    && |s.claims| <= |t.claims| && (forall i :: 0 <= i < |s.claims| ==> ClaimRowStep(s.claims[i], t.claims[i]))
    && |s.incidents| <= |t.incidents| && (forall i :: 0 <= i < |s.incidents| ==>
          IncidentRowStep(s.incidents[i], t.incidents[i]))
  }

  lemma DecideIsARowStep(c: Claim, cmd: ClaimCommand, now: nat)
    requires RefusedOutright(cmd).None? && Decide(c, cmd, now).Ok?
    ensures ClaimRowStep(c, Decide(c, cmd, now).value)
  {
  }

  lemma AdvanceIsARowStep(c: Incident, cmd: IncidentCommand, now: nat)
    requires Advance(c, cmd, now).Ok?
    ensures IncidentRowStep(c, Advance(c, cmd, now).value)
  {
  }

  lemma GrowsByAppending(s: State, t: State)
    requires s.claims <= t.claims && s.incidents <= t.incidents
    ensures Grows(s, t)
  {
  }

  lemma GrowsByReplacingClaim(s: State, i: nat, c: Claim)
    requires i < |s.claims| && ClaimRowStep(s.claims[i], c)
    ensures Grows(s, s.(claims := s.claims[i := c]))
  {
  }

  lemma GrowsByReplacingIncident(s: State, i: nat, c: Incident)
    requires i < |s.incidents| && IncidentRowStep(s.incidents[i], c)
    ensures Grows(s, s.(incidents := s.incidents[i := c]))
  {
  }

  lemma MovedClaimGrows(s: State, t: State, i: int, reference: string, cmd: ClaimCommand, at: nat)
    requires ClaimMoved(s, t, i, reference, cmd, at)
    ensures Grows(s, t)
  {
    DecideIsARowStep(s.claims[i], cmd, at);
    GrowsByReplacingClaim(s, i, Decide(s.claims[i], cmd, at).value);
  }

  lemma MovedIncidentGrows(s: State, t: State, i: int, reference: string, cmd: IncidentCommand, at: nat)
    requires IncidentMoved(s, t, i, reference, cmd, at)
    ensures Grows(s, t)
  {
    AdvanceIsARowStep(s.incidents[i], cmd, at);
    GrowsByReplacingIncident(s, i, Advance(s.incidents[i], cmd, at).value);
  }

  lemma OnClaimGrows(s: State, reference: string, cmd: ClaimCommand, at: nat)
    requires Sound(s)
    ensures Grows(s, OnClaim(s, reference, cmd, at).0)
  {
    var r := OnClaim(s, reference, cmd, at);
    OnClaimKeeps(s, reference, cmd, at);
    if r.1.Ok? {
      var i :| ClaimMoved(s, r.0, i, reference, cmd, at);
      MovedClaimGrows(s, r.0, i, reference, cmd, at);
    }
  }

  lemma OnIncidentGrows(s: State, reference: string, cmd: IncidentCommand, at: nat)
    requires Sound(s)
    ensures Grows(s, OnIncident(s, reference, cmd, at).0)
  {
    var r := OnIncident(s, reference, cmd, at);
    OnIncidentKeeps(s, reference, cmd, at);
    if r.1.Ok? {
      var i :| IncidentMoved(s, r.0, i, reference, cmd, at);
      MovedIncidentGrows(s, r.0, i, reference, cmd, at);
    }
  }

  lemma FileGrows(s: State, f: Filing, id: Uuid, now: Moment, isCode: string -> bool)
    requires Sound(s) && IsDay(now.day) && forall d :: d in s.claims ==> d.id != id
    ensures Grows(s, FileClaim(s, f, id, now, isCode).0)
  {
    FileClaimKeeps(s, f, id, now, isCode);
    GrowsByAppending(s, FileClaim(s, f, id, now, isCode).0);
  }

  lemma ReportGrows(s: State, r: IncidentReport, id: Uuid, now: Moment, isCode: string -> bool)
    requires Sound(s) && IsDay(now.day) && forall d :: d in s.incidents ==> d.id != id
    ensures Grows(s, ReportIncident(s, r, id, now, isCode).0)
  {
    ReportIncidentKeeps(s, r, id, now, isCode);
    GrowsByAppending(s, ReportIncident(s, r, id, now, isCode).0);
  }

  lemma StepGrows(s: State, c: Command, isCode: string -> bool)
    requires Sound(s) && Possible(s, c)
    ensures Grows(s, Step(s, c, isCode))
  {
    match c
    case File(f, id, now) => FileGrows(s, f, id, now, isCode);
    case Act(reference, cmd, at) => OnClaimGrows(s, reference, cmd, at);
    case Report(r, id, now) => ReportGrows(s, r, id, now, isCode);
    case ActOnIncident(reference, cmd, at) => OnIncidentGrows(s, reference, cmd, at);
    case RequestReturn(_) => GrowsByAppending(s, s);
  }

  lemma GrowsIsTransitive(a: State, b: State, c: State)
    requires Grows(a, b) && Grows(b, c)
    ensures Grows(a, c)
  {
    forall i | 0 <= i < |a.claims| ensures ClaimRowStep(a.claims[i], c.claims[i]) {
      assert ClaimRowStep(a.claims[i], b.claims[i]) && ClaimRowStep(b.claims[i], c.claims[i]);
    }
    forall i | 0 <= i < |a.incidents| ensures IncidentRowStep(a.incidents[i], c.incidents[i]) {
      assert IncidentRowStep(a.incidents[i], b.incidents[i]) && IncidentRowStep(b.incidents[i], c.incidents[i]);
    }
  }

  lemma {:induction false} GrowthSpreads(states: seq<State>, m: nat, n: nat)
    requires m <= n < |states|
    requires forall k: nat :: k + 1 < |states| ==> Grows(states[k], states[k + 1])
    ensures Grows(states[m], states[n])
    decreases n
  {
    if m < n {
      GrowthSpreads(states, m, n - 1);
      GrowsIsTransitive(states[m], states[n - 1], states[n]);
    } else {
      GrowsByAppending(states[m], states[m]);
    }
  }

  /**
   Outcomes are final: once approved or rejected a claim's whole row never changes again, nor does a resolved
   incident's; a withdrawn claim stays withdrawn; and no row is ever lost or gets another row's reference, parcel or
   kind.
   */
  lemma OutcomesAreFinal(run: seq<Command>, states: seq<State>, m: nat, n: nat, isCode: string -> bool)
    requires IsRun(run, states, isCode) && m <= n <= |run|
    ensures Grows(states[m], states[n])
  {
    forall k: nat | k + 1 < |states| ensures Grows(states[k], states[k + 1]) {
      EveryStateIsSound(run, states, k, isCode);
      StepGrows(states[k], run[k], isCode);
    }
    GrowthSpreads(states, m, n);
  }

  /** What a custody review recorded on a claim row makes of it. */
  function CustodyRecorded(c: Claim, reviewer: Actor): Claim {
    c.(custodyReviewed := true, reviewer := Some(reviewer.principal), version := c.version + 1)
  }

  lemma WithdrawnDecides(c: Claim, cmd: ClaimCommand, at: nat)
    requires c.status.Withdrawn?
    ensures RefusedOutright(cmd).None? && Decide(c, cmd, at).Ok? <==>
      cmd.RecordCustodyReview? && cmd.actor.MayReviewAClaim()
    ensures cmd.RecordCustodyReview? ==> Decide(c, cmd, at) == Ok(CustodyRecorded(c, cmd.actor))
  {
  }

  /**
   Only the status of a withdrawn claim is final: a custody review recorded afterwards by someone allowed is accepted
   and changes the row. It is the one command that still is.
   */
  lemma WithdrawnRowsStillChange(s: State, i: nat, cmd: ClaimCommand, at: nat)
    requires Sound(s) && i < |s.claims| && s.claims[i].status.Withdrawn?
    ensures var r := OnClaim(s, s.claims[i].reference, cmd, at);
      && (r.1.Ok? <==> cmd.RecordCustodyReview? && cmd.actor.MayReviewAClaim())
      && (r.1.Ok? ==> r.0 == s.(claims := s.claims[i := CustodyRecorded(s.claims[i], cmd.actor)]))
  {
    var reference := s.claims[i].reference;
    FindIsUnique(s, i);
    WithdrawnDecides(s.claims[i], cmd, at);
    if OnClaim(s, reference, cmd, at).1.Ok? {
      OnClaimKeeps(s, reference, cmd, at);
      var j :| ClaimMoved(s, OnClaim(s, reference, cmd, at).0, j, reference, cmd, at);
      assert j == i;
    }
  }

  /** A custody review of that claim by someone allowed to record it. */
  predicate Reviews(c: Command, reference: string) {
    c.Act? && c.reference == reference && c.cmd.RecordCustodyReview? && c.cmd.actor.MayReviewAClaim()
  }

  lemma WithdrawnRowStep(s: State, c: Command, isCode: string -> bool, i: nat)
    requires Sound(s) && Possible(s, c) && i < |s.claims| && s.claims[i].status.Withdrawn?
    ensures var t := Step(s, c, isCode);
      && i < |t.claims|
      && t.claims[i] == if Reviews(c, s.claims[i].reference) then CustodyRecorded(s.claims[i], c.cmd.actor)
        else s.claims[i]
  {
    StepGrows(s, c, isCode);
    if c.Act? && c.reference == s.claims[i].reference {
      WithdrawnRowsStillChange(s, i, c.cmd, c.at);
      OnClaimKeeps(s, c.reference, c.cmd, c.at);
    } else if c.Act? && OnClaim(s, c.reference, c.cmd, c.at).1.Ok? {
      OnClaimKeeps(s, c.reference, c.cmd, c.at);
    } else {
      OnlyActsMoveClaims(s, c, isCode, i);
    }
  }

  /** Row i is there from m to n, and changes with a higher version exactly where it is hit. */
  predicate ChangesWhereHit(states: seq<State>, m: nat, n: nat, i: nat, hit: nat -> bool) {
    && m <= n < |states| && (forall k: nat :: m <= k <= n ==> i < |states[k].claims|)
    && forall k: nat :: m <= k < n ==>
      var a, b := states[k].claims[i], states[k + 1].claims[i];
      if hit(k) then b.version == a.version + 1 else b == a
  }

  lemma {:induction false} HitsShow(states: seq<State>, m: nat, n: nat, i: nat, hit: nat -> bool)
    requires ChangesWhereHit(states, m, n, i, hit)
    ensures states[m].claims[i].version <= states[n].claims[i].version
    ensures states[n].claims[i] == states[m].claims[i] <==> forall k: nat :: m <= k < n ==> !hit(k)
    ensures states[n].claims[i].version == states[m].claims[i].version ==> states[n].claims[i] == states[m].claims[i]
    decreases n
  {
    if m < n {
      HitsShow(states, m, n - 1, i, hit);
    }
  }

  lemma WithdrawnStays(run: seq<Command>, states: seq<State>, m: nat, k: nat, i: nat, isCode: string -> bool)
    requires IsRun(run, states, isCode) && m <= k <= |run|
    requires i < |states[m].claims| && states[m].claims[i].status.Withdrawn?
    ensures i < |states[k].claims| && states[k].claims[i].status.Withdrawn?
    ensures states[k].claims[i].reference == states[m].claims[i].reference
  {
    OutcomesAreFinal(run, states, m, k, isCode);
  }

  lemma WithdrawnRunStep(run: seq<Command>, states: seq<State>, k: nat, i: nat, isCode: string -> bool)
    requires IsRun(run, states, isCode) && k < |run|
    requires i < |states[k].claims| && states[k].claims[i].status.Withdrawn?
    ensures i < |states[k + 1].claims|
    ensures var a, b := states[k].claims[i], states[k + 1].claims[i];
      if Reviews(run[k], a.reference) then b.version == a.version + 1 else b == a
  {
    EveryStateIsSound(run, states, k, isCode);
    WithdrawnRowStep(states[k], run[k], isCode, i);
  }

  /** Over every run a withdrawn row stays exactly as it is until someone allowed records a custody review of it. */
  lemma WithdrawnRowsChangeOnlyByReview(run: seq<Command>, states: seq<State>, m: nat, n: nat, i: nat,
                                        isCode: string -> bool)
    requires IsRun(run, states, isCode) && m <= n <= |run|
    requires i < |states[m].claims| && states[m].claims[i].status.Withdrawn?
    ensures i < |states[n].claims|
    ensures states[n].claims[i] == states[m].claims[i] <==>
      forall k: nat :: m <= k < n ==> !Reviews(run[k], states[m].claims[i].reference)
  {
    var reference := states[m].claims[i].reference;
    var hit := (k: nat) => k < |run| && Reviews(run[k], reference);
    forall k: nat | m <= k <= n
      ensures i < |states[k].claims| && states[k].claims[i].status.Withdrawn?
        && states[k].claims[i].reference == reference
    {
      WithdrawnStays(run, states, m, k, i, isCode);
    }
    forall k: nat | m <= k < n
      ensures var a, b := states[k].claims[i], states[k + 1].claims[i];
        if hit(k) then b.version == a.version + 1 else b == a
    {
      WithdrawnRunStep(run, states, k, i, isCode);
    }
    HitsShow(states, m, n, i, hit);
    assert forall k: nat :: m <= k < n ==> hit(k) == Reviews(run[k], reference);
  }

  lemma FindIsUnique(s: State, i: nat)
    requires UniqueReferences(s) && i < |s.claims|
    ensures FindClaim(s.claims, s.claims[i].reference) == Some(s.claims[i])
  {
    var r := FindClaim(s.claims, s.claims[i].reference);
    assert s.claims[i] in s.claims;
    var j :| 0 <= j < |s.claims| && s.claims[j] == r.value;
    assert j == i;
  }

  // ---------------------------------------------------------------- a decision has a review behind it

  /** Command k of the run is an accepted one on claim row i. */
  predicate ActsOn(run: seq<Command>, states: seq<State>, k: nat, i: nat) {
    && k < |run| && k + 1 < |states| && run[k].Act?
    && ClaimMoved(states[k], states[k + 1], i, run[k].reference, run[k].cmd, run[k].at)
  }

  predicate Starts(run: seq<Command>, states: seq<State>, k: nat, i: nat) {
    ActsOn(run, states, k, i) && run[k].cmd.StartReview? && run[k].cmd.actor.MayReviewAClaim()
  }

  /** A reviewer asserting that the scan and custody records were read. */
  predicate AssertsCustody(run: seq<Command>, states: seq<State>, k: nat, i: nat) {
    && ActsOn(run, states, k, i)
    && (run[k].cmd.RecordCustodyReview? || (run[k].cmd.StartReview? && run[k].cmd.custodyReviewed))
    && run[k].cmd.actor.MayReviewAClaim()
  }

  predicate Decides(run: seq<Command>, states: seq<State>, k: nat, i: nat) {
    && ActsOn(run, states, k, i)
    && (run[k].cmd.Approve? || run[k].cmd.Reject?)
    && run[k].cmd.actor.MayDecideAClaim()
  }

  predicate StartedBy(run: seq<Command>, states: seq<State>, n: nat, i: nat) {
    exists a: nat :: a < n && Starts(run, states, a, i)
  }

  /** The custody records were asserted read no earlier than the review started. */
  predicate ReviewedBy(run: seq<Command>, states: seq<State>, n: nat, i: nat) {
    exists a: nat, b: nat :: a <= b < n && Starts(run, states, a, i) && AssertsCustody(run, states, b, i)
  }

  predicate DecidedBy(run: seq<Command>, states: seq<State>, n: nat, i: nat) {
    exists k: nat :: k < n && Decides(run, states, k, i) && ReviewedBy(run, states, k, i)
  }

  /** What a claim row says about the run that made it. */
  predicate Told(run: seq<Command>, states: seq<State>, n: nat, i: nat) {
    n < |states| && i < |states[n].claims| ==>
      var c := states[n].claims[i];
      && (c.status.UnderReview? ==> StartedBy(run, states, n, i))
      && (c.status.UnderReview? && c.custodyReviewed ==> ReviewedBy(run, states, n, i))
      && (IsDecided(c.status) ==> DecidedBy(run, states, n, i))
  }

  lemma Later(run: seq<Command>, states: seq<State>, n: nat, i: nat)
    ensures StartedBy(run, states, n, i) ==> StartedBy(run, states, n + 1, i)
    ensures ReviewedBy(run, states, n, i) ==> ReviewedBy(run, states, n + 1, i)
    ensures DecidedBy(run, states, n, i) ==> DecidedBy(run, states, n + 1, i)
  {
    if StartedBy(run, states, n, i) {
      var a: nat :| a < n && Starts(run, states, a, i);
      assert a < n + 1;
    }
    if ReviewedBy(run, states, n, i) {
      var a: nat, b: nat :| a <= b < n && Starts(run, states, a, i) && AssertsCustody(run, states, b, i);
      assert b < n + 1;
    }
    if DecidedBy(run, states, n, i) {
      var k: nat :| k < n && Decides(run, states, k, i) && ReviewedBy(run, states, k, i);
      assert k < n + 1;
    }
  }

  /** A row that the last command did not move tells the same story, and a new row has none to tell. */
  lemma SameRowsTold(run: seq<Command>, states: seq<State>, n: nat, i: nat)
    requires n + 1 < |states| && Told(run, states, n, i) && i < |states[n + 1].claims|
    requires if i < |states[n].claims| then states[n + 1].claims[i] == states[n].claims[i]
      else states[n + 1].claims[i].status.Submitted?
    ensures Told(run, states, n + 1, i)
  {
    Later(run, states, n, i);
  }

  lemma MovedRowTold(run: seq<Command>, states: seq<State>, n: nat, i: nat)
    requires ActsOn(run, states, n, i) && Told(run, states, n, i)
    ensures Told(run, states, n + 1, i)
  {
    Later(run, states, n, i);
    var c := states[n].claims[i];
    match run[n].cmd
    case Withdraw(_) =>
    case StartReview(_, reviewed) =>
      assert Starts(run, states, n, i);
      if reviewed {
        assert AssertsCustody(run, states, n, i);
      }
    case RecordCustodyReview(_) =>
      if c.status.UnderReview? {
        var a: nat :| a < n && Starts(run, states, a, i);
        assert AssertsCustody(run, states, n, i);
      }
    case Approve(_, _) =>
      assert Decides(run, states, n, i) && ReviewedBy(run, states, n, i);
    case Reject(_, _, _) =>
      assert Decides(run, states, n, i) && ReviewedBy(run, states, n, i);
  }

  lemma NextTold(run: seq<Command>, states: seq<State>, n: nat, i: nat, isCode: string -> bool)
    requires IsRun(run, states, isCode) && n < |run| && Told(run, states, n, i)
    ensures Told(run, states, n + 1, i)
  {
    var s, t := states[n], states[n + 1];
    EveryStateIsSound(run, states, n, isCode);
    if i < |t.claims| {
      if run[n].Act? && OnClaim(s, run[n].reference, run[n].cmd, run[n].at).1.Ok? {
        OnClaimKeeps(s, run[n].reference, run[n].cmd, run[n].at);
        var j :| ClaimMoved(s, t, j, run[n].reference, run[n].cmd, run[n].at);
        if j == i { MovedRowTold(run, states, n, i); } else { SameRowsTold(run, states, n, i); }
      } else {
        OnlyActsMoveClaims(s, run[n], isCode, i);
        SameRowsTold(run, states, n, i);
      }
    }
  }

  lemma OnlyActsMoveClaims(s: State, c: Command, isCode: string -> bool, i: nat)
    requires Sound(s) && Possible(s, c) && i < |Step(s, c, isCode).claims|
    requires c.Act? ==> OnClaim(s, c.reference, c.cmd, c.at).1.Err?
    ensures var t := Step(s, c, isCode);
      if i < |s.claims| then t.claims[i] == s.claims[i] else t.claims[i].status.Submitted?
  {
    match c
    case File(f, id, now) => FileClaimKeeps(s, f, id, now, isCode);
    case Act(reference, cmd, at) => OnClaimKeeps(s, reference, cmd, at);
    case Report(r, id, now) => ReportIncidentKeeps(s, r, id, now, isCode);
    case ActOnIncident(reference, cmd, at) =>
    case RequestReturn(_) =>
  }

  lemma {:induction false} StoriesSpread(run: seq<Command>, states: seq<State>, n: nat, i: nat)
    requires n < |states| && Told(run, states, 0, i)
    requires forall k: nat :: k + 1 < |states| && Told(run, states, k, i) ==> Told(run, states, k + 1, i)
    ensures Told(run, states, n, i)
  {
    if n > 0 {
      StoriesSpread(run, states, n - 1, i);
    }
  }

  /** A decision with its review: started at a, custody records asserted read at b, decided at k. */
  predicate ReviewedThenDecided(run: seq<Command>, states: seq<State>, a: nat, b: nat, k: nat, i: nat) {
    a <= b < k && Starts(run, states, a, i) && AssertsCustody(run, states, b, i) && Decides(run, states, k, i)
  }

  /**
   Review cannot be skipped: behind every decided claim there is, in this order, an accepted start of review, an
   accepted assertion that the custody records were read (the start itself or later), and an accepted decision, each by
   someone allowed to do it.
   */
  lemma NoDecisionWithoutReview(run: seq<Command>, states: seq<State>, n: nat, i: nat, isCode: string -> bool)
    requires IsRun(run, states, isCode) && n <= |run| && i < |states[n].claims| && IsDecided(states[n].claims[i].status)
    ensures exists a: nat, b: nat, k: nat :: k < n && ReviewedThenDecided(run, states, a, b, k, i)
  {
    forall k: nat | k + 1 < |states| && Told(run, states, k, i) ensures Told(run, states, k + 1, i) {
      NextTold(run, states, k, i, isCode);
    }
    StoriesSpread(run, states, n, i);
    var k: nat :| k < n && Decides(run, states, k, i) && ReviewedBy(run, states, k, i);
    var a: nat, b: nat :| a <= b < k && Starts(run, states, a, i) && AssertsCustody(run, states, b, i);
    assert ReviewedThenDecided(run, states, a, b, k, i);
  }

  /** A custody review recorded before the review starts does not count: starting it sets the flag afresh. */
  lemma EarlyCustodyReviewIsForgotten(c: Claim, reviewer: Actor, decider: Actor, amount: nat, now: nat)
    requires c.status.Submitted?
    ensures var recorded := Decide(c, RecordCustodyReview(reviewer), now);
      recorded.Ok? && recorded.value.custodyReviewed
      && var started := Decide(recorded.value, StartReview(reviewer, false), now);
         started.Ok? && Decide(started.value, Approve(decider, Some(amount)), now) == Err(CustodyRecordsNotReviewed)
  {
  }

  // ---------------------------------------------------------------- when a decision is accepted

  /** The liability check at approval never fires, because no claim is ever filed past the boundary. */
  lemma ApprovalIsExactlyForReviewedClaims(s: State, i: nat, decider: Actor, amount: Option<nat>, now: nat)
    requires Sound(s) && i < |s.claims|
    ensures OnClaim(s, s.claims[i].reference, Approve(decider, amount), now).1.Ok? <==>
      decider.MayDecideAClaim() && amount.Some? && amount.value > 0
      && s.claims[i].status.UnderReview? && s.claims[i].custodyReviewed
    ensures OnClaim(s, s.claims[i].reference, Approve(decider, amount), now).1 != Err(LiabilityEndedAtTheDoor)
  {
    FindIsUnique(s, i);
    assert s.claims[i] in s.claims;
  }

  /** A second claim on a parcel is refused exactly while the first is open. */
  lemma OneOpenClaimAtATime(s: State, f: Filing, id: Uuid, now: Moment, isCode: string -> bool)
    requires FilingError(f, isCode).None?
    ensures FileClaim(s, f, id, now, isCode).1.Err? <==>
      exists c :: c in s.claims && c.trackingCode == f.trackingCode && IsOpen(c.status)
  {
    FindOpenFinds(s.claims, f.trackingCode);
  }

  lemma {:induction false} FindOpenFinds(claims: seq<Claim>, trackingCode: string)
    ensures FindOpen(claims, trackingCode).Some? <==>
      exists c :: c in claims && c.trackingCode == trackingCode && IsOpen(c.status)
  {
    if claims != [] {
      FindOpenFinds(claims[1..], trackingCode);
      assert claims == [claims[0]] + claims[1..];
    }
  }
}
