/** What a claim or incident row says, told from the commands of the run that made it. */
module ClaimFacts {
  import opened Wrappers
  import opened Json
  import opened Strings
  import opened Claims
  import opened ClaimRuns

  // ---------------------------------------------------------------- when a command is accepted

  /** The conditions on a command and the row it is for, role by role and status by status. */
  predicate IsAcceptable(c: Claim, cmd: ClaimCommand) {
    match cmd
    case Withdraw(principal) =>
      (c.opener == Some(principal) || c.sender == Some(principal)) && c.status in {Submitted, UnderReview}
    case StartReview(actor, _) => (Support in actor.roles || Operations in actor.roles) && c.status == Submitted
    case RecordCustodyReview(actor) =>
      (Support in actor.roles || Operations in actor.roles) && c.status !in {Approved, Rejected}
    case Approve(actor, amount) =>
      && (Operations in actor.roles || Accountant in actor.roles) && amount.Some? && amount.value > 0
      && c.status == UnderReview && c.custodyReviewed
    case Reject(actor, reason, note) =>
      && (Operations in actor.roles || Accountant in actor.roles)
      && reason.Some? && (reason == Some(Other) ==> note.Some? && Strip(note.value) != "")
      && c.status == UnderReview && c.custodyReviewed
  }

  /** What an accepted command makes of a row: the fields it sets, and a version one higher. */
  predicate Makes(a: Claim, cmd: ClaimCommand, at: nat, b: Claim) {
    match cmd
    case Withdraw(_) => b == a.(status := Withdrawn, withdrawnAt := Some(at), version := a.version + 1)
    case StartReview(actor, reviewed) =>
      b == a.(status := UnderReview, reviewStartedAt := Some(at), reviewer := Some(actor.principal),
              custodyReviewed := reviewed, version := a.version + 1)
    case RecordCustodyReview(actor) =>
      b == a.(custodyReviewed := true, reviewer := Some(actor.principal), version := a.version + 1)
    case Approve(actor, amount) =>
      b == a.(status := Approved, compensation := amount, decidedAt := Some(at), decider := Some(actor.principal),
              version := a.version + 1)
    case Reject(actor, reason, note) =>
      b == a.(status := Rejected, rejection := reason, rejectionNote := b.rejectionNote, decidedAt := Some(at),
              decider := Some(actor.principal), version := a.version + 1)
      && b.rejectionNote == if note.Some? && Strip(note.value) != "" then Some(Strip(note.value)) else None
  }

  lemma DecideMeans(c: Claim, cmd: ClaimCommand, at: nat)
    requires StillLiable(c.boundary)
    ensures RefusedOutright(cmd).None? && Decide(c, cmd, at).Ok? <==> IsAcceptable(c, cmd)
    ensures Decide(c, cmd, at).Ok? ==> Makes(c, cmd, at, Decide(c, cmd, at).value)
  {
  }

  /** A command on a claim is accepted exactly if the row and the roles allow it; then that row changes, and only it. */
  lemma CommandsAreAcceptedExactly(s: State, i: nat, cmd: ClaimCommand, at: nat)
    requires Sound(s) && i < |s.claims|
    ensures var r := OnClaim(s, s.claims[i].reference, cmd, at);
      && (r.1.Ok? <==> IsAcceptable(s.claims[i], cmd))
      && (r.1.Ok? ==> Makes(s.claims[i], cmd, at, r.1.value) && r.0 == s.(claims := s.claims[i := r.1.value]))
      && (r.1.Err? ==> r.0 == s)
  {
    AnswerOf(s, i, cmd, at);
    assert s.claims[i] in s.claims;
    DecideMeans(s.claims[i], cmd, at);
    OnClaimKeeps(s, s.claims[i].reference, cmd, at);
    if OnClaim(s, s.claims[i].reference, cmd, at).1.Ok? {
      SaveReplaces(s.claims, Decide(s.claims[i], cmd, at).value, i);
    }
  }

  /** A reference no claim has is refused as not found, unless the command would be refused on any claim. */
  lemma UnknownIsNotFound(s: State, reference: string, cmd: ClaimCommand, at: nat)
    requires forall c :: c in s.claims ==> c.reference != reference
    ensures var r := OnClaim(s, reference, cmd, at);
      && r.0 == s && r.1.Err? && (r.1.error == ClaimNotFound || forall c :: IsTrueOf(r.1.error, c, cmd))
      && ((exists c :: IsAcceptable(c, cmd)) ==> r.1.error == ClaimNotFound)
  {
    if RefusedOutright(cmd).Some? {
      forall c ensures IsTrueOf(RefusedOutright(cmd).value, c, cmd) && !IsAcceptable(c, cmd) {
        OutrightIsTrue(c, cmd);
        RefusedIsUnacceptable(c, cmd);
      }
    }
  }

  lemma RefusedIsUnacceptable(c: Claim, cmd: ClaimCommand)
    requires RefusedOutright(cmd).Some?
    ensures !IsAcceptable(c, cmd)
  {
  }

  /** Whoever lacks the role learns nothing: the refusal is the same whatever the claims are. */
  lemma StrangersLearnNothing(s: State, t: State, reference: string, cmd: ClaimCommand, at: nat)
    requires match cmd
      case Withdraw(_) => false
      case StartReview(actor, _) => Support !in actor.roles && Operations !in actor.roles
      case RecordCustodyReview(actor) => Support !in actor.roles && Operations !in actor.roles
      case Approve(actor, _) => Operations !in actor.roles && Accountant !in actor.roles
      case Reject(actor, _, _) => Operations !in actor.roles && Accountant !in actor.roles
    ensures OnClaim(s, reference, cmd, at).1 == OnClaim(t, reference, cmd, at).1
    ensures OnClaim(s, reference, cmd, at).1 ==
      Err(if cmd.StartReview? || cmd.RecordCustodyReview? then OnlySupportOrOperationsReviews
          else OnlyOperationsDecidesAClaim)
  {
  }

  /** What a refusal says, and the condition that fails. */
  predicate IsTrueOf(error: Error, c: Claim, cmd: ClaimCommand) {
    match error
    case OnlySupportOrOperationsReviews =>
      && (cmd.StartReview? || cmd.RecordCustodyReview?)
      && Support !in cmd.actor.roles && Operations !in cmd.actor.roles
    case OnlyOperationsDecidesAClaim =>
      (cmd.Approve? || cmd.Reject?) && Operations !in cmd.actor.roles && Accountant !in cmd.actor.roles
    case CompensationAmountRequired => cmd.Approve? && (cmd.compensation.None? || cmd.compensation == Some(0))
    case RejectionReasonRequired =>
      && cmd.Reject?
      && (cmd.reason.None? || (cmd.reason == Some(Other) && (cmd.note.None? || Strip(cmd.note.value) == "")))
    case NotYourClaim => cmd.Withdraw? && c.opener != Some(cmd.principal) && c.sender != Some(cmd.principal)
    case ClaimAlreadyDecided => cmd.RecordCustodyReview? && c.status in {Approved, Rejected}
    case ClaimTransitionNotAllowed =>
      || (cmd.Withdraw? && c.status in {Approved, Rejected, Withdrawn})
      || (cmd.StartReview? && c.status != Submitted)
      || ((cmd.Approve? || cmd.Reject?) && c.status != UnderReview)
    case CustodyRecordsNotReviewed => (cmd.Approve? || cmd.Reject?) && c.status == UnderReview && !c.custodyReviewed
    case _ => false
  }

  lemma OutrightIsTrue(c: Claim, cmd: ClaimCommand)
    ensures RefusedOutright(cmd).Some? ==> IsTrueOf(RefusedOutright(cmd).value, c, cmd)
  {
  }

  lemma DecidedIsTrue(c: Claim, cmd: ClaimCommand, at: nat)
    requires StillLiable(c.boundary)
    ensures Decide(c, cmd, at).Err? ==> IsTrueOf(Decide(c, cmd, at).error, c, cmd)
  {
  }

  lemma AnswerOf(s: State, i: nat, cmd: ClaimCommand, at: nat)
    requires UniqueReferences(s) && i < |s.claims|
    ensures OnClaim(s, s.claims[i].reference, cmd, at).1 ==
      if RefusedOutright(cmd).Some? then Err(RefusedOutright(cmd).value) else Decide(s.claims[i], cmd, at)
  {
    FindIsUnique(s, i);
  }

  /** Every refusal names a condition that fails. */
  lemma RefusalsAreTrue(s: State, i: nat, cmd: ClaimCommand, at: nat)
    requires Sound(s) && i < |s.claims| && OnClaim(s, s.claims[i].reference, cmd, at).1.Err?
    ensures IsTrueOf(OnClaim(s, s.claims[i].reference, cmd, at).1.error, s.claims[i], cmd)
  {
    assert s.claims[i] in s.claims;
    AnswerOf(s, i, cmd, at);
    OutrightIsTrue(s.claims[i], cmd);
    DecidedIsTrue(s.claims[i], cmd, at);
  }

  // ---------------------------------------------------------------- filing

  /** A filing as the row it becomes. */
  predicate Files(f: Filing, id: Uuid, at: nat, c: Claim) {
    && c.id == id && c.trackingCode == f.trackingCode && c.kind == f.kind && c.openedBy == f.openedBy
    && c.opener == f.opener && c.sender == f.sender && c.description == f.description && c.evidence == f.evidence
    && c.boundary == f.boundary && c.submittedAt == Some(at)
  }

  /** Nothing has happened to the claim yet. */
  predicate IsFresh(c: Claim) {
    && c.status == Submitted && c.reviewStartedAt.None? && c.reviewer.None? && !c.custodyReviewed && c.decidedAt.None?
    && c.decider.None? && c.compensation.None? && c.rejection.None? && c.rejectionNote.None? && c.withdrawnAt.None?
    && c.version == 1
  }

  predicate IsFileable(s: State, f: Filing, isCode: string -> bool) {
    && isCode(f.trackingCode) && (f.kind == DamagedInTransit ==> f.evidence != [])
    && f.boundary in {InHudhudCustody, OpenBoxAtTheDoor}
    && forall c :: c in s.claims && c.trackingCode == f.trackingCode ==> c.status !in {Submitted, UnderReview}
  }

  /** A claim is filed exactly if it may be; the new row says what was filed, and takes the day's next reference. */
  lemma ClaimsAreFiledExactly(s: State, f: Filing, id: Uuid, now: Moment, isCode: string -> bool)
    requires Sound(s) && IsDay(now.day) && forall d :: d in s.claims ==> d.id != id
    ensures var r := FileClaim(s, f, id, now, isCode); var n := LastNumber(s.counters, now.day) + 1;
      && (r.1.Ok? <==> IsFileable(s, f, isCode))
      && (r.1.Ok? ==>
            && Files(f, id, now.at, r.1.value) && IsFresh(r.1.value) && r.1.value.reference == Reference(now.day, n)
            && r.0 == State(s.claims + [r.1.value], s.incidents, s.counters[now.day := n]))
      && (r.1.Err? ==> r.0 == s)
  {
    FileClaimKeeps(s, f, id, now, isCode);
    FilingMeans(s, f, isCode);
    FiledMeans(f, id, Reference(now.day, LastNumber(s.counters, now.day) + 1), now.at);
  }

  lemma FilingMeans(s: State, f: Filing, isCode: string -> bool)
    ensures IsFileable(s, f, isCode) <==> FilingError(f, isCode).None? && FindOpen(s.claims, f.trackingCode).None?
  {
    FindOpenFinds(s.claims, f.trackingCode);
  }

  lemma FiledMeans(f: Filing, id: Uuid, reference: string, at: nat)
    ensures var c := Filed(f, id, reference, at); Files(f, id, at, c) && IsFresh(c) && c.reference == reference
  {
  }

  /** A refused filing is told what is wrong, and which claim is open already. */
  lemma FilingRefusalsAreTrue(s: State, f: Filing, id: Uuid, now: Moment, isCode: string -> bool)
    requires FileClaim(s, f, id, now, isCode).1.Err?
    ensures match FileClaim(s, f, id, now, isCode).1.error
      case InvalidTrackingCode => !isCode(f.trackingCode)
      case PhotographsRequired => isCode(f.trackingCode) && f.kind == DamagedInTransit && f.evidence == []
      case LiabilityEndedAtTheDoor => isCode(f.trackingCode)
        && f.boundary in {TakenInsideToTest, AcceptedAndCourierLeft}
      case ClaimAlreadyOpenForThisParcel(reference) =>
        exists c :: c in s.claims && c.reference == reference && c.trackingCode == f.trackingCode
          && c.status in {Submitted, UnderReview}
      case _ => false
  {
    OpenIsThere(s.claims, f.trackingCode);
  }

  lemma {:induction false} OpenIsThere(claims: seq<Claim>, trackingCode: string)
    ensures var r := FindOpen(claims, trackingCode);
      r.Some? ==>
        && r.value in claims && r.value.trackingCode == trackingCode && r.value.status in {Submitted, UnderReview}
  {
    if claims != [] {
      OpenIsThere(claims[1..], trackingCode);
    }
  }

  // ---------------------------------------------------------------- the story of a claim row

  /** Command k changed claim row i. */
  predicate Changes(run: seq<Command>, states: seq<State>, k: nat, i: nat) {
    && k < |run| && k + 1 < |states| && i < |states[k].claims| && i < |states[k + 1].claims|
    && states[k + 1].claims[i] != states[k].claims[i]
  }

  /** It was an acceptable command on that claim, and did what such a command does. */
  predicate IsDeed(c: Command, a: Claim, b: Claim) {
    c.Act? && c.reference == a.reference && IsAcceptable(a, c.cmd) && Makes(a, c.cmd, c.at, b)
  }

  predicate IsFiling(c: Command, b: Claim) {
    c.File? && Files(c.filing, c.id, c.now.at, b) && IsFresh(b)
  }

  lemma AppendedOrSame(s: State, c: Command, isCode: string -> bool, i: nat)
    requires Sound(s) && Possible(s, c) && i < |Step(s, c, isCode).claims| && !c.Act?
    ensures var t := Step(s, c, isCode);
      if i < |s.claims| then t.claims[i] == s.claims[i] else IsFiling(c, t.claims[i]) && i == |s.claims|
  {
    match c
    case File(f, id, now) => ClaimsAreFiledExactly(s, f, id, now, isCode);
    case Report(r, id, now) => ReportIncidentKeeps(s, r, id, now, isCode);
    case ActOnIncident(_, _, _) =>
    case RequestReturn(_) =>
  }

  lemma FoundIsAt(claims: seq<Claim>, reference: string) returns (i: nat)
    requires exists c :: c in claims && c.reference == reference
    ensures i < |claims| && claims[i].reference == reference
  {
    var c :| c in claims && c.reference == reference;
    i :| 0 <= i < |claims| && claims[i] == c;
  }

  lemma ActedOrSame(s: State, c: Command, isCode: string -> bool, i: nat)
    requires Sound(s) && c.Act? && i < |Step(s, c, isCode).claims|
    ensures var t := Step(s, c, isCode);
      i < |s.claims| && (t.claims[i] == s.claims[i] || IsDeed(c, s.claims[i], t.claims[i]))
  {
    if exists d :: d in s.claims && d.reference == c.reference {
      var j := FoundIsAt(s.claims, c.reference);
      CommandsAreAcceptedExactly(s, j, c.cmd, c.at);
    } else {
      UnknownIsNotFound(s, c.reference, c.cmd, c.at);
    }
  }

  /** From one state of a run to the next a row stays, is changed by an acceptable command on it, or is filed. */
  lemma RowOfNext(run: seq<Command>, states: seq<State>, k: nat, i: nat, isCode: string -> bool)
    requires IsRun(run, states, isCode) && k < |run| && i < |states[k + 1].claims|
    ensures if i >= |states[k].claims| then IsFiling(run[k], states[k + 1].claims[i]) && i == |states[k].claims|
      else Changes(run, states, k, i) ==> IsDeed(run[k], states[k].claims[i], states[k + 1].claims[i])
  {
    EveryStateIsSound(run, states, k, isCode);
    if run[k].Act? {
      ActedOrSame(states[k], run[k], isCode, i);
    } else {
      AppendedOrSame(states[k], run[k], isCode, i);
    }
  }

  function DeedsUpTo(run: seq<Command>, states: seq<State>, n: nat, i: nat): nat {
    if n == 0 then 0 else DeedsUpTo(run, states, n - 1, i) + if Changes(run, states, n - 1, i) then 1 else 0
  }

  /** The command that closed a claim, and what it left on the row. */
  predicate Closes(c: Command, b: Claim) {
    c.Act? &&
    match c.cmd
    case Withdraw(principal) =>
      && b.status == Withdrawn && b.withdrawnAt == Some(c.at)
      && (b.opener == Some(principal) || b.sender == Some(principal))
    case Approve(actor, amount) =>
      && b.status == Approved && amount.Some? && amount.value > 0 && b.compensation == amount
      && b.decidedAt == Some(c.at) && b.decider == Some(actor.principal)
      && (Operations in actor.roles || Accountant in actor.roles)
    case Reject(actor, reason, note) =>
      && b.status == Rejected && reason.Some? && b.rejection == reason
      && (if note.Some? && Strip(note.value) != "" then b.rejectionNote == Some(Strip(note.value))
          else b.rejectionNote.None? && reason != Some(Other))
      && b.decidedAt == Some(c.at) && b.decider == Some(actor.principal)
      && (Operations in actor.roles || Accountant in actor.roles)
    case _ => false
  }

  /** What is on a row only after a decision, and only after that one. */
  predicate HasOnlyItsOutcome(b: Claim) {
    && (b.compensation.Some? ==> b.status == Approved)
    && (b.rejection.Some? || b.rejectionNote.Some? ==> b.status == Rejected)
    && (b.decidedAt.Some? || b.decider.Some? ==> b.status in {Approved, Rejected})
    && (b.withdrawnAt.Some? ==> b.status == Withdrawn)
  }

  predicate ClosedAt(run: seq<Command>, states: seq<State>, k: nat, i: nat, b: Claim) {
    Changes(run, states, k, i) && Closes(run[k], b) && states[k].claims[i].status in {Submitted, UnderReview}
  }

  predicate IsReview(c: Command) {
    c.Act? && (c.cmd.StartReview? || c.cmd.RecordCustodyReview?)
  }

  /** The last command on the row, before n, that reviewed it. */
  predicate LastReview(run: seq<Command>, states: seq<State>, n: nat, k: nat, i: nat) {
    && k < n && Changes(run, states, k, i) && IsReview(run[k])
    && forall m: nat :: k < m < n && Changes(run, states, m, i) ==> !IsReview(run[m])
  }

  predicate NeverReviewed(run: seq<Command>, states: seq<State>, n: nat, i: nat) {
    forall m: nat :: m < n && Changes(run, states, m, i) ==> !IsReview(run[m])
  }

  /** The reviewer and the custody flag are those of the last review: what it asserted, or that it was recorded. */
  predicate ReviewedAt(c: Command, b: Claim) {
    && IsReview(c) && b.reviewer == Some(c.cmd.actor.principal)
    && (Support in c.cmd.actor.roles || Operations in c.cmd.actor.roles)
    && b.custodyReviewed == (c.cmd.RecordCustodyReview? || c.cmd.custodyReviewed)
  }

  /** The review was started by this command. */
  predicate StartedAt(run: seq<Command>, states: seq<State>, n: nat, k: nat, i: nat, b: Claim) {
    && k < n && Changes(run, states, k, i) && run[k].Act? && run[k].cmd.StartReview?
    && b.reviewStartedAt == Some(run[k].at)
  }

  ghost predicate WasStarted(run: seq<Command>, states: seq<State>, n: nat, i: nat, b: Claim) {
    exists k: nat :: StartedAt(run, states, n, k, i, b)
  }

  ghost predicate WasFiled(run: seq<Command>, n: nat, b: Claim) {
    exists k: nat :: k < n && k < |run| && run[k].File? && Files(run[k].filing, run[k].id, run[k].now.at, b)
  }

  ghost predicate WasClosed(run: seq<Command>, states: seq<State>, n: nat, i: nat, b: Claim) {
    exists k: nat :: k < n && ClosedAt(run, states, k, i, b)
  }

  ghost predicate WasReviewed(run: seq<Command>, states: seq<State>, n: nat, i: nat, b: Claim) {
    exists k: nat :: LastReview(run, states, n, k, i) && ReviewedAt(run[k], b)
  }

  /** Everything a claim row says, told from the run. */
  ghost predicate TellsItsRun(run: seq<Command>, states: seq<State>, n: nat, i: nat, b: Claim) {
    && WasFiled(run, n, b)
    && b.version == 1 + DeedsUpTo(run, states, n, i)
    && HasOnlyItsOutcome(b)
    && (b.status !in {Submitted, UnderReview} ==> WasClosed(run, states, n, i, b))
    && (if b.reviewer.None? then NeverReviewed(run, states, n, i) && !b.custodyReviewed
        else WasReviewed(run, states, n, i, b))
    && (b.reviewStartedAt.Some? ==> WasStarted(run, states, n, i, b))
    && (b.status in {UnderReview, Approved, Rejected} ==> b.reviewStartedAt.Some?)
  }

  lemma {:induction false} NoDeedsYet(run: seq<Command>, states: seq<State>, n: nat, i: nat)
    requires n <= |states| && forall k: nat :: k < n ==> i >= |states[k].claims|
    ensures DeedsUpTo(run, states, n, i) == 0 && NeverReviewed(run, states, n, i)
  {
    if n > 0 {
      NoDeedsYet(run, states, n - 1, i);
    }
  }

  lemma FiledTells(run: seq<Command>, states: seq<State>, n: nat, i: nat, isCode: string -> bool)
    requires IsRun(run, states, isCode) && n < |run| && |states[n].claims| <= i < |states[n + 1].claims|
    ensures TellsItsRun(run, states, n + 1, i, states[n + 1].claims[i])
  {
    RowOfNext(run, states, n, i, isCode);
    forall k: nat | k < n + 1 ensures i >= |states[k].claims| {
      OutcomesAreFinal(run, states, k, n, isCode);
    }
    NoDeedsYet(run, states, n + 1, i);
  }

  lemma ReviewsCarryOn(run: seq<Command>, states: seq<State>, n: nat, i: nat)
    requires Changes(run, states, n, i) ==> !IsReview(run[n])
    ensures NeverReviewed(run, states, n, i) ==> NeverReviewed(run, states, n + 1, i)
    ensures forall k: nat :: LastReview(run, states, n, k, i) ==> LastReview(run, states, n + 1, k, i)
  {
  }

  lemma StoryCarriesOn(run: seq<Command>, states: seq<State>, n: nat, i: nat, b: Claim)
    requires Changes(run, states, n, i) ==> !IsReview(run[n])
    ensures WasFiled(run, n, b) ==> WasFiled(run, n + 1, b)
    ensures WasClosed(run, states, n, i, b) ==> WasClosed(run, states, n + 1, i, b)
    ensures WasStarted(run, states, n, i, b) ==> WasStarted(run, states, n + 1, i, b)
    ensures WasReviewed(run, states, n, i, b) ==> WasReviewed(run, states, n + 1, i, b)
    ensures NeverReviewed(run, states, n, i) ==> NeverReviewed(run, states, n + 1, i)
  {
    ReviewsCarryOn(run, states, n, i);
    if WasStarted(run, states, n, i, b) {
      var k: nat :| StartedAt(run, states, n, k, i, b);
      assert StartedAt(run, states, n + 1, k, i, b);
    }
    if WasReviewed(run, states, n, i, b) {
      var k: nat :| LastReview(run, states, n, k, i) && ReviewedAt(run[k], b);
      assert LastReview(run, states, n + 1, k, i);
    }
  }

  lemma SameTells(run: seq<Command>, states: seq<State>, n: nat, i: nat)
    requires n + 1 < |states| && i < |states[n].claims| && TellsItsRun(run, states, n, i, states[n].claims[i])
    requires i < |states[n + 1].claims| && !Changes(run, states, n, i) && n < |run|
    ensures TellsItsRun(run, states, n + 1, i, states[n + 1].claims[i])
  {
    var b := states[n].claims[i];
    assert states[n + 1].claims[i] == b;
    StoryCarriesOn(run, states, n, i, b);
  }

  /** What a deed leaves alone, of what was said before it. */
  lemma DeedKeeps(c: Command, a: Claim, b: Claim, f: Filing, id: Uuid, at: nat)
    requires IsDeed(c, a, b)
    ensures Files(f, id, at, a) ==> Files(f, id, at, b)
    ensures b.version == a.version + 1
    ensures HasOnlyItsOutcome(a) ==> HasOnlyItsOutcome(b)
    ensures a.status in {UnderReview, Approved, Rejected} && a.reviewStartedAt.Some? ==> b.reviewStartedAt.Some?
  {
  }

  lemma DeedReviews(c: Command, a: Claim, b: Claim)
    requires IsDeed(c, a, b)
    ensures if IsReview(c) then ReviewedAt(c, b) else b.reviewer == a.reviewer && b.custodyReviewed == a.custodyReviewed
    ensures if c.cmd.StartReview? then b.reviewStartedAt == Some(c.at) else b.reviewStartedAt == a.reviewStartedAt
    ensures b.status in {UnderReview, Approved, Rejected} ==>
      c.cmd.StartReview? || a.status in {UnderReview, Approved, Rejected}
  {
  }

  lemma DeedCloses(c: Command, a: Claim, b: Claim)
    requires IsDeed(c, a, b) && b.status !in {Submitted, UnderReview}
    ensures a.status in {Submitted, UnderReview} ==> Closes(c, b)
    ensures a.status !in {Submitted, UnderReview} ==> c.cmd.RecordCustodyReview? && a.status == Withdrawn
    ensures a.status !in {Submitted, UnderReview} ==> forall d :: Closes(d, a) ==> Closes(d, b)
  {
  }

  lemma DeedTells(run: seq<Command>, states: seq<State>, n: nat, i: nat)
    requires n < |run| && Changes(run, states, n, i) && TellsItsRun(run, states, n, i, states[n].claims[i])
    requires IsDeed(run[n], states[n].claims[i], states[n + 1].claims[i])
    ensures TellsItsRun(run, states, n + 1, i, states[n + 1].claims[i])
  {
    var a, b := states[n].claims[i], states[n + 1].claims[i];
    var f: nat :| f < n && f < |run| && run[f].File? && Files(run[f].filing, run[f].id, run[f].now.at, a);
    DeedKeeps(run[n], a, b, run[f].filing, run[f].id, run[f].now.at);
    assert WasFiled(run, n + 1, b);
    DeedTellsReview(run, states, n, i);
    DeedTellsOutcome(run, states, n, i);
  }

  lemma DeedTellsReview(run: seq<Command>, states: seq<State>, n: nat, i: nat)
    requires n < |run| && Changes(run, states, n, i) && TellsItsRun(run, states, n, i, states[n].claims[i])
    requires IsDeed(run[n], states[n].claims[i], states[n + 1].claims[i])
    ensures var b := states[n + 1].claims[i];
      && (if b.reviewer.None? then NeverReviewed(run, states, n + 1, i) && !b.custodyReviewed
          else WasReviewed(run, states, n + 1, i, b))
      && (b.reviewStartedAt.Some? ==> WasStarted(run, states, n + 1, i, b))
      && (b.status in {UnderReview, Approved, Rejected} ==> b.reviewStartedAt.Some?)
  {
    var a, b := states[n].claims[i], states[n + 1].claims[i];
    DeedReviews(run[n], a, b);
    if IsReview(run[n]) {
      assert LastReview(run, states, n + 1, n, i);
    } else {
      ReviewsCarryOn(run, states, n, i);
      if a.reviewer.Some? {
        var k: nat :| LastReview(run, states, n, k, i) && ReviewedAt(run[k], a);
        assert LastReview(run, states, n + 1, k, i) && ReviewedAt(run[k], b);
      }
    }
    if run[n].cmd.StartReview? {
      assert StartedAt(run, states, n + 1, n, i, b);
    } else if a.reviewStartedAt.Some? {
      var k: nat :| StartedAt(run, states, n, k, i, a);
      assert StartedAt(run, states, n + 1, k, i, b);
    }
  }

  lemma DeedTellsOutcome(run: seq<Command>, states: seq<State>, n: nat, i: nat)
    requires n < |run| && Changes(run, states, n, i) && TellsItsRun(run, states, n, i, states[n].claims[i])
    requires IsDeed(run[n], states[n].claims[i], states[n + 1].claims[i])
    ensures var b := states[n + 1].claims[i];
      b.status !in {Submitted, UnderReview} ==> WasClosed(run, states, n + 1, i, b)
  {
    var a, b := states[n].claims[i], states[n + 1].claims[i];
    if b.status !in {Submitted, UnderReview} {
      DeedCloses(run[n], a, b);
      if a.status in {Submitted, UnderReview} {
        assert ClosedAt(run, states, n, i, b);
      } else {
        var k: nat :| k < n && ClosedAt(run, states, k, i, a);
        assert ClosedAt(run, states, k, i, b);
      }
    }
  }

  /**
   Every claim row tells the run: it says what was filed; its version counts the commands accepted on it; a closed claim
   says who closed it, when, and with which amount or reason; and its reviewer and custody flag are those of the last
   review.
   */
  lemma {:induction false} ClaimsTellTheirRun(run: seq<Command>, states: seq<State>, n: nat, i: nat,
                                              isCode: string -> bool)
    requires IsRun(run, states, isCode) && n <= |run| && i < |states[n].claims|
    ensures TellsItsRun(run, states, n, i, states[n].claims[i])
  {
    if n > 0 {
      if i >= |states[n - 1].claims| {
        FiledTells(run, states, n - 1, i, isCode);
      } else {
        ClaimsTellTheirRun(run, states, n - 1, i, isCode);
        if Changes(run, states, n - 1, i) {
          RowOfNext(run, states, n - 1, i, isCode);
          DeedTells(run, states, n - 1, i);
        } else {
          SameTells(run, states, n - 1, i);
        }
      }
    }
  }

  /** No claim is closed twice. */
  lemma ClosedOnce(run: seq<Command>, states: seq<State>, i: nat, j: nat, k: nat, b: Claim, c: Claim,
                   isCode: string -> bool)
    requires IsRun(run, states, isCode) && ClosedAt(run, states, j, i, b) && ClosedAt(run, states, k, i, c)
    ensures j == k
  {
    if j < k {
      ClosedStays(run, states, i, j, k, isCode);
    } else if k < j {
      ClosedStays(run, states, i, k, j, isCode);
    }
  }

  lemma ClosedStays(run: seq<Command>, states: seq<State>, i: nat, j: nat, k: nat, isCode: string -> bool)
    requires IsRun(run, states, isCode) && j < k < |states| && j < |run|
    requires Changes(run, states, j, i)
    requires !IsReview(run[j])
    ensures i < |states[k].claims| && states[k].claims[i].status !in {Submitted, UnderReview}
  {
    RowOfNext(run, states, j, i, isCode);
    OutcomesAreFinal(run, states, j + 1, k, isCode);
    assert ClaimRowStep(states[j + 1].claims[i], states[k].claims[i]);
  }

  // ---------------------------------------------------------------- incidents

  /** Whether operations may take this step on an incident of this status. */
  predicate IsAllowed(c: Incident, cmd: IncidentCommand) {
    Operations in cmd.actor.roles &&
    match cmd
    case StartInvestigation(_) => c.status == Reported
    case Resolve(_, note, _) => Strip(note) != "" && c.status in {Reported, UnderInvestigation}
  }

  predicate Advances(a: Incident, cmd: IncidentCommand, at: nat, b: Incident) {
    match cmd
    case StartInvestigation(_) =>
      b == a.(status := UnderInvestigation, investigationStartedAt := Some(at), version := a.version + 1)
    case Resolve(actor, note, linked) =>
      b == a.(status := Resolved, resolvedAt := Some(at), resolver := Some(actor.principal),
              resolutionNote := Some(Strip(note)), linkedClaim := linked, version := a.version + 1)
  }

  lemma AdvanceMeans(c: Incident, cmd: IncidentCommand, at: nat)
    ensures RefusedAtOnce(cmd).None? && Advance(c, cmd, at).Ok? <==> IsAllowed(c, cmd)
    ensures Advance(c, cmd, at).Ok? ==> Advances(c, cmd, at, Advance(c, cmd, at).value)
  {
  }

  lemma FindIncidentIsUnique(s: State, i: nat)
    requires UniqueReferences(s) && i < |s.incidents|
    ensures FindIncident(s.incidents, s.incidents[i].reference) == Some(s.incidents[i])
  {
    var r := FindIncident(s.incidents, s.incidents[i].reference);
    assert s.incidents[i] in s.incidents;
    var j :| 0 <= j < |s.incidents| && s.incidents[j] == r.value;
  }

  lemma AnswerOnIncident(s: State, i: nat, cmd: IncidentCommand, at: nat)
    requires UniqueReferences(s) && i < |s.incidents|
    ensures OnIncident(s, s.incidents[i].reference, cmd, at).1 ==
      if RefusedAtOnce(cmd).Some? then Err(RefusedAtOnce(cmd).value) else Advance(s.incidents[i], cmd, at)
  {
    FindIncidentIsUnique(s, i);
  }

  lemma RefusedAtOnceIsTrue(c: Incident, cmd: IncidentCommand)
    ensures RefusedAtOnce(cmd).Some? ==> IsTrueOfIncident(RefusedAtOnce(cmd).value, c, cmd)
  {
  }

  lemma IncidentRefusalIsTrue(c: Incident, cmd: IncidentCommand, at: nat)
    ensures Advance(c, cmd, at).Err? ==> IsTrueOfIncident(Advance(c, cmd, at).error, c, cmd)
  {
  }

  /** The same of incidents: which steps are accepted, what they do, and what a refusal says. */
  lemma StepsAreAcceptedExactly(s: State, i: nat, cmd: IncidentCommand, at: nat)
    requires Sound(s) && i < |s.incidents|
    ensures var r := OnIncident(s, s.incidents[i].reference, cmd, at);
      && (r.1.Ok? <==> IsAllowed(s.incidents[i], cmd))
      && (r.1.Ok? ==>
            && Advances(s.incidents[i], cmd, at, r.1.value)
            && r.0 == s.(incidents := s.incidents[i := r.1.value]))
      && (r.1.Err? ==> r.0 == s && IsTrueOfIncident(r.1.error, s.incidents[i], cmd))
  {
    AnswerOnIncident(s, i, cmd, at);
    AdvanceMeans(s.incidents[i], cmd, at);
    RefusedAtOnceIsTrue(s.incidents[i], cmd);
    IncidentRefusalIsTrue(s.incidents[i], cmd, at);
    OnIncidentKeeps(s, s.incidents[i].reference, cmd, at);
    if OnIncident(s, s.incidents[i].reference, cmd, at).1.Ok? {
      SaveReplacesIncident(s.incidents, Advance(s.incidents[i], cmd, at).value, i);
    }
  }

  predicate IsTrueOfIncident(error: Error, c: Incident, cmd: IncidentCommand) {
    match error
    case OnlyOperationsResolvesAnIncident => Operations !in cmd.actor.roles
    case ResolutionNoteRequired => Operations in cmd.actor.roles && cmd.Resolve? && Strip(cmd.note) == ""
    case IncidentTransitionNotAllowed => c.status == Resolved || (c.status == UnderInvestigation && !cmd.Resolve?)
    case _ => false
  }

  predicate IsReportable(r: IncidentReport, isCode: string -> bool) {
    r.kind != VehicleOrSafetyIssue ==> r.trackingCode.Some? && isCode(r.trackingCode.value)
  }

  /** A report as the row it becomes: a vehicle or safety issue is about no parcel, whatever was given. */
  predicate Reports(r: IncidentReport, id: Uuid, at: nat, c: Incident) {
    && c.id == id && c.kind == r.kind && c.driver == r.driver && c.reportedAt == at && c.evidence == r.evidence
    && c.trackingCode == (if r.kind == VehicleOrSafetyIssue then None else r.trackingCode)
    && c.note == (if r.note.Some? && Strip(r.note.value) != "" then Some(Strip(r.note.value)) else None)
  }

  predicate IsNewIncident(c: Incident) {
    && c.status == Reported && c.investigationStartedAt.None? && c.resolvedAt.None? && c.resolver.None?
    && c.resolutionNote.None? && c.linkedClaim.None? && c.version == 1
  }

  lemma IncidentsAreReportedExactly(s: State, r: IncidentReport, id: Uuid, now: Moment, isCode: string -> bool)
    requires Sound(s) && IsDay(now.day) && forall d :: d in s.incidents ==> d.id != id
    ensures var a := ReportIncident(s, r, id, now, isCode); var n := LastNumber(s.counters, now.day) + 1;
      && (a.1.Ok? <==> IsReportable(r, isCode))
      && (a.1.Ok? ==>
            && Reports(r, id, now.at, a.1.value) && IsNewIncident(a.1.value)
            && a.1.value.reference == Reference(now.day, n)
            && a.0 == State(s.claims, s.incidents + [a.1.value], s.counters[now.day := n]))
      && (a.1.Err? ==> a.0 == s && a.1.error == if r.trackingCode.None? then IncidentNeedsAParcel
            else InvalidTrackingCode)
  {
    ReportIncidentKeeps(s, r, id, now, isCode);
  }

  predicate ChangesIncident(run: seq<Command>, states: seq<State>, k: nat, i: nat) {
    && k < |run| && k + 1 < |states| && i < |states[k].incidents| && i < |states[k + 1].incidents|
    && states[k + 1].incidents[i] != states[k].incidents[i]
  }

  predicate IsIncidentDeed(c: Command, a: Incident, b: Incident) {
    && c.ActOnIncident? && c.reference == a.reference && IsAllowed(a, c.incidentCmd)
    && Advances(a, c.incidentCmd, c.at, b)
  }

  predicate IsReporting(c: Command, b: Incident) {
    c.Report? && Reports(c.report, c.id, c.now.at, b) && IsNewIncident(b)
  }

  lemma ReportedOrSame(s: State, c: Command, isCode: string -> bool, i: nat)
    requires Sound(s) && Possible(s, c) && i < |Step(s, c, isCode).incidents| && !c.ActOnIncident?
    ensures var t := Step(s, c, isCode);
      if i < |s.incidents| then t.incidents[i] == s.incidents[i]
      else IsReporting(c, t.incidents[i]) && i == |s.incidents|
  {
    match c
    case File(f, id, now) => FileClaimKeeps(s, f, id, now, isCode);
    case Report(r, id, now) => IncidentsAreReportedExactly(s, r, id, now, isCode);
    case Act(_, _, _) =>
    case RequestReturn(_) =>
  }

  lemma SteppedOrSame(s: State, c: Command, isCode: string -> bool, i: nat)
    requires Sound(s) && c.ActOnIncident? && i < |Step(s, c, isCode).incidents|
    ensures var t := Step(s, c, isCode);
      i < |s.incidents| && (t.incidents[i] == s.incidents[i] || IsIncidentDeed(c, s.incidents[i], t.incidents[i]))
  {
    if exists d :: d in s.incidents && d.reference == c.reference {
      var j := FoundIncidentAt(s.incidents, c.reference);
      StepsAreAcceptedExactly(s, j, c.incidentCmd, c.at);
    } else {
      NoIncidentFound(s, c.reference, c.incidentCmd, c.at);
    }
  }

  lemma FoundIncidentAt(incidents: seq<Incident>, reference: string) returns (i: nat)
    requires exists c :: c in incidents && c.reference == reference
    ensures i < |incidents| && incidents[i].reference == reference
  {
    var c :| c in incidents && c.reference == reference;
    i :| 0 <= i < |incidents| && incidents[i] == c;
  }

  lemma NoIncidentFound(s: State, reference: string, cmd: IncidentCommand, at: nat)
    requires forall c :: c in s.incidents ==> c.reference != reference
    ensures OnIncident(s, reference, cmd, at).0 == s
  {
  }

  lemma IncidentOfNext(run: seq<Command>, states: seq<State>, k: nat, i: nat, isCode: string -> bool)
    requires IsRun(run, states, isCode) && k < |run| && i < |states[k + 1].incidents|
    ensures if i >= |states[k].incidents| then IsReporting(run[k], states[k + 1].incidents[i])
      else ChangesIncident(run, states, k, i) ==>
        IsIncidentDeed(run[k], states[k].incidents[i], states[k + 1].incidents[i])
  {
    EveryStateIsSound(run, states, k, isCode);
    if run[k].ActOnIncident? {
      SteppedOrSame(states[k], run[k], isCode, i);
    } else {
      ReportedOrSame(states[k], run[k], isCode, i);
    }
  }

  predicate InvestigatedAt(run: seq<Command>, states: seq<State>, n: nat, k: nat, i: nat, b: Incident) {
    && k < n && ChangesIncident(run, states, k, i) && run[k].ActOnIncident? && run[k].incidentCmd.StartInvestigation?
    && b.investigationStartedAt == Some(run[k].at) && Operations in run[k].incidentCmd.actor.roles
  }

  predicate ResolvedAt(run: seq<Command>, states: seq<State>, n: nat, k: nat, i: nat, b: Incident) {
    && k < n && ChangesIncident(run, states, k, i) && run[k].ActOnIncident? && run[k].incidentCmd.Resolve?
    && Operations in run[k].incidentCmd.actor.roles && Strip(run[k].incidentCmd.note) != ""
    && b.resolvedAt == Some(run[k].at) && b.resolver == Some(run[k].incidentCmd.actor.principal)
    && b.resolutionNote == Some(Strip(run[k].incidentCmd.note)) && b.linkedClaim == run[k].incidentCmd.linkedClaim
  }

  predicate ReportedAt(run: seq<Command>, n: nat, k: nat, b: Incident) {
    k < n && k < |run| && run[k].Report? && Reports(run[k].report, run[k].id, run[k].now.at, b)
  }

  ghost predicate WasReported(run: seq<Command>, n: nat, b: Incident) {
    exists k: nat :: ReportedAt(run, n, k, b)
  }

  ghost predicate WasInvestigated(run: seq<Command>, states: seq<State>, n: nat, i: nat, b: Incident) {
    exists k: nat :: InvestigatedAt(run, states, n, k, i, b)
  }

  ghost predicate WasResolved(run: seq<Command>, states: seq<State>, n: nat, i: nat, b: Incident) {
    exists k: nat :: ResolvedAt(run, states, n, k, i, b)
  }

  /** Everything an incident row says, told from the run. */
  ghost predicate IncidentTellsItsRun(run: seq<Command>, states: seq<State>, n: nat, i: nat, b: Incident) {
    && WasReported(run, n, b)
    && (b.investigationStartedAt.Some? ==> WasInvestigated(run, states, n, i, b))
    && (b.status == UnderInvestigation ==> b.investigationStartedAt.Some?)
    && (if b.status == Resolved then WasResolved(run, states, n, i, b)
        else b.resolvedAt.None? && b.resolver.None? && b.resolutionNote.None? && b.linkedClaim.None?)
  }

  lemma StillTold(run: seq<Command>, states: seq<State>, n: nat, i: nat, a: Incident, b: Incident)
    requires WasReported(run, n, a)
    requires a.id == b.id && a.kind == b.kind && a.driver == b.driver && a.reportedAt == b.reportedAt
    requires a.evidence == b.evidence && a.trackingCode == b.trackingCode && a.note == b.note
    ensures WasReported(run, n + 1, b)
    ensures WasInvestigated(run, states, n, i, a) && b.investigationStartedAt == a.investigationStartedAt ==>
      WasInvestigated(run, states, n + 1, i, b)
    ensures WasResolved(run, states, n, i, a) && b == a ==> WasResolved(run, states, n + 1, i, b)
  {
    var k: nat :| ReportedAt(run, n, k, a);
    assert ReportedAt(run, n + 1, k, b);
    if WasInvestigated(run, states, n, i, a) && b.investigationStartedAt == a.investigationStartedAt {
      var j: nat :| InvestigatedAt(run, states, n, j, i, a);
      assert InvestigatedAt(run, states, n + 1, j, i, b);
    }
    if WasResolved(run, states, n, i, a) && b == a {
      var j: nat :| ResolvedAt(run, states, n, j, i, a);
      assert ResolvedAt(run, states, n + 1, j, i, b);
    }
  }

  lemma IncidentDeedTells(run: seq<Command>, states: seq<State>, n: nat, i: nat)
    requires n < |run| && n + 1 < |states| && i < |states[n].incidents| && i < |states[n + 1].incidents|
    requires ChangesIncident(run, states, n, i) && IncidentTellsItsRun(run, states, n, i, states[n].incidents[i])
    requires IsIncidentDeed(run[n], states[n].incidents[i], states[n + 1].incidents[i])
    ensures IncidentTellsItsRun(run, states, n + 1, i, states[n + 1].incidents[i])
  {
    var a, b := states[n].incidents[i], states[n + 1].incidents[i];
    StillTold(run, states, n, i, a, b);
    if run[n].incidentCmd.Resolve? {
      assert ResolvedAt(run, states, n + 1, n, i, b);
    } else {
      assert InvestigatedAt(run, states, n + 1, n, i, b);
    }
  }

  /** Every incident row tells the run: what was reported, when it was investigated, and how it was resolved. */
  lemma {:induction false} IncidentsTellTheirRun(run: seq<Command>, states: seq<State>, n: nat, i: nat,
                                                 isCode: string -> bool)
    requires IsRun(run, states, isCode) && n <= |run| && i < |states[n].incidents|
    ensures IncidentTellsItsRun(run, states, n, i, states[n].incidents[i])
  {
    if n > 0 {
      IncidentOfNext(run, states, n - 1, i, isCode);
      var b := states[n].incidents[i];
      if i >= |states[n - 1].incidents| {
        assert ReportedAt(run, n, n - 1, b);
      } else {
        IncidentsTellTheirRun(run, states, n - 1, i, isCode);
        if ChangesIncident(run, states, n - 1, i) {
          IncidentDeedTells(run, states, n - 1, i);
        } else {
          StillTold(run, states, n - 1, i, b, b);
        }
      }
    }
  }

  // ---------------------------------------------------------------- references

  /** Command k was a filing or a report of that day, and was accepted. */
  predicate TakesNumber(run: seq<Command>, states: seq<State>, k: nat, day: string) {
    && k < |run| && k + 1 < |states|
    && ((run[k].File? && run[k].now.day == day && states[k + 1].claims != states[k].claims)
        || (run[k].Report? && run[k].now.day == day && states[k + 1].incidents != states[k].incidents))
  }

  function NumbersTaken(run: seq<Command>, states: seq<State>, n: nat, day: string): nat {
    if n == 0 then 0 else NumbersTaken(run, states, n - 1, day) + if TakesNumber(run, states, n - 1, day) then 1 else 0
  }

  lemma NumberOfNext(run: seq<Command>, states: seq<State>, k: nat, day: string, isCode: string -> bool)
    requires IsRun(run, states, isCode) && k < |run|
    ensures LastNumber(states[k + 1].counters, day) ==
      LastNumber(states[k].counters, day) + if TakesNumber(run, states, k, day) then 1 else 0
  {
    EveryStateIsSound(run, states, k, isCode);
    match run[k]
    case File(f, id, now) => ClaimsAreFiledExactly(states[k], f, id, now, isCode);
    case Report(r, id, now) => IncidentsAreReportedExactly(states[k], r, id, now, isCode);
    case Act(reference, cmd, at) => OnClaimKeeps(states[k], reference, cmd, at);
    case ActOnIncident(reference, cmd, at) => OnIncidentKeeps(states[k], reference, cmd, at);
    case RequestReturn(_) =>
  }

  lemma {:induction false} CountersCount(run: seq<Command>, states: seq<State>, n: nat, day: string,
                                         isCode: string -> bool)
    requires IsRun(run, states, isCode) && n <= |run|
    ensures LastNumber(states[n].counters, day) == NumbersTaken(run, states, n, day)
  {
    if n > 0 {
      CountersCount(run, states, n - 1, day, isCode);
      NumberOfNext(run, states, n - 1, day, isCode);
    }
  }

  /**
   A day's references are numbered without a gap over claims and incidents together: the next accepted filing or report
   of the day gets one more than the number accepted that day so far; a refused one takes no number.
   */
  lemma ReferencesAreConsecutive(run: seq<Command>, states: seq<State>, k: nat, day: string, isCode: string -> bool)
    requires IsRun(run, states, isCode) && k < |run| && TakesNumber(run, states, k, day)
    ensures var reference := Reference(day, NumbersTaken(run, states, k, day) + 1);
      if run[k].File? then EndsWithClaim(states[k].claims, states[k + 1].claims, reference)
      else EndsWithIncident(states[k].incidents, states[k + 1].incidents, reference)
  {
    EveryStateIsSound(run, states, k, isCode);
    CountersCount(run, states, k, day, isCode);
    NextReferenceIsTaken(states[k], run[k], day, isCode);
  }

  predicate EndsWithClaim(before: seq<Claim>, after: seq<Claim>, reference: string) {
    |after| == |before| + 1 && after[|before|].reference == reference
  }

  predicate EndsWithIncident(before: seq<Incident>, after: seq<Incident>, reference: string) {
    |after| == |before| + 1 && after[|before|].reference == reference
  }

  lemma NextReferenceIsTaken(s: State, c: Command, day: string, isCode: string -> bool)
    requires Sound(s) && Possible(s, c) && (c.File? || c.Report?) && c.now.day == day
    ensures var reference, t := Reference(day, LastNumber(s.counters, day) + 1), Step(s, c, isCode);
      && (c.File? && t.claims != s.claims ==> EndsWithClaim(s.claims, t.claims, reference))
      && (c.Report? && t.incidents != s.incidents ==> EndsWithIncident(s.incidents, t.incidents, reference))
  {
    match c
    case File(f, id, now) => FilingTakesNext(s, f, id, now, isCode);
    case Report(r, id, now) => ReportTakesNext(s, r, id, now, isCode);
  }

  lemma FilingTakesNext(s: State, f: Filing, id: Uuid, now: Moment, isCode: string -> bool)
    requires Sound(s) && Possible(s, File(f, id, now))
    ensures var t := Step(s, File(f, id, now), isCode);
      t.claims != s.claims ==>
        && |t.claims| == |s.claims| + 1
        && t.claims[|s.claims|].reference == Reference(now.day, LastNumber(s.counters, now.day) + 1)
  {
    ClaimsAreFiledExactly(s, f, id, now, isCode);
  }

  lemma ReportTakesNext(s: State, r: IncidentReport, id: Uuid, now: Moment, isCode: string -> bool)
    requires Sound(s) && Possible(s, Report(r, id, now))
    ensures var t := Step(s, Report(r, id, now), isCode);
      t.incidents != s.incidents ==>
        && |t.incidents| == |s.incidents| + 1
        && t.incidents[|s.incidents|].reference == Reference(now.day, LastNumber(s.counters, now.day) + 1)
  {
    IncidentsAreReportedExactly(s, r, id, now, isCode);
  }
}
