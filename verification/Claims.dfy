/** Claims and driver incidents: what each command does to the rows, and the row constraints of the claims migration. */
module Claims {
  import opened Wrappers
  import opened Json
  import opened Strings
  import opened Timestamps

  // ---------------------------------------------------------------- values

  datatype Role = Customer | MerchantOwner | PickupDriver | LastMileDriver | Support | Operations | Accountant

  datatype Actor = Actor(principal: Uuid, roles: set<Role>) {
    predicate IsDriver() { PickupDriver in roles || LastMileDriver in roles }

    predicate MayReviewAClaim() { Support in roles || Operations in roles }

    predicate MayDecideAClaim() { Operations in roles || Accountant in roles }

    predicate MayResolveAnIncident() { Operations in roles }

    /** Never a driver, whatever else they are. */
    predicate MaySeeACompensationValue() {
      !IsDriver() && (Operations in roles || Accountant in roles || Support in roles)
    }
  }

  datatype ClaimKind = DamagedInTransit | LostParcel | WrongCodAmount

  datatype OpenedBy = BySender | ByReceiver | ByDriver | BySupport

  datatype ClaimStatus = Submitted | UnderReview | Approved | Rejected | Withdrawn

  datatype CustodyBoundary = InHudhudCustody | OpenBoxAtTheDoor | TakenInsideToTest | AcceptedAndCourierLeft

  datatype RejectionReason =
    | LiabilityEndedReason | CustodyRecordDoesNotSupportIt | NoEvidenceProvided | DamagePresentBeforePickup
    | DuplicateOfAnotherClaim | Other

  datatype IncidentKind =
    | DamageAfterAcceptance | ParcelMissing | LabelUnreadable | VehicleOrSafetyIssue | HandoffMismatch

  datatype IncidentStatus = Reported | UnderInvestigation | Resolved

  datatype Media = Media(bucket: string, key: string)

  /** An instant, and the day the clock prints it on. */
  datatype Moment = Moment(at: nat, day: string)

  datatype Claim = Claim(
    id: Uuid, reference: string, trackingCode: string, kind: ClaimKind, openedBy: OpenedBy, opener: Option<Uuid>,
    sender: Option<Uuid>, description: Option<string>, evidence: seq<Media>, boundary: CustodyBoundary,
    status: ClaimStatus,
    submittedAt: Option<nat>, reviewStartedAt: Option<nat>, reviewer: Option<Uuid>, custodyReviewed: bool,
    decidedAt: Option<nat>, decider: Option<Uuid>, compensation: Option<nat>, rejection: Option<RejectionReason>,
    rejectionNote: Option<string>, withdrawnAt: Option<nat>, version: nat)

  datatype Incident = Incident(
    id: Uuid, reference: string, kind: IncidentKind, driver: Uuid, reportedAt: nat, trackingCode: Option<string>,
    note: Option<string>, evidence: seq<Media>, status: IncidentStatus, investigationStartedAt: Option<nat>,
    resolvedAt: Option<nat>, resolver: Option<Uuid>, resolutionNote: Option<string>, linkedClaim: Option<Uuid>,
    version: nat)

  predicate CanMove(from: ClaimStatus, to: ClaimStatus) {
    match from
    case Submitted => to.UnderReview? || to.Withdrawn?
    case UnderReview => to.Approved? || to.Rejected? || to.Withdrawn?
    case _ => false
  }

  predicate CanAdvance(from: IncidentStatus, to: IncidentStatus) {
    match from
    case Reported => to.UnderInvestigation? || to.Resolved?
    case UnderInvestigation => to.Resolved?
    case Resolved => false
  }

  predicate IsOpen(status: ClaimStatus) {
    status.Submitted? || status.UnderReview?
  }

  predicate IsDecided(status: ClaimStatus) {
    status.Approved? || status.Rejected?
  }

  predicate StillLiable(boundary: CustodyBoundary) {
    boundary.InHudhudCustody? || boundary.OpenBoxAtTheDoor?
  }

  predicate IsAboutAParcel(kind: IncidentKind) {
    !kind.VehicleOrSafetyIssue?
  }

  // ---------------------------------------------------------------- references

  /** At least six digits, as `:06d` prints a number. */
  function Padded(n: nat): string {
    if n < 1_000_000 then Digits(n, 6) else Decimal(n)
  }

  predicate IsDay(day: string) {
    |day| == 8 && AllDigits(day)
  }

  function Reference(day: string, sequence: nat): string {
    "CLM-" + (day + ("-" + Padded(sequence)))
  }

  lemma {:induction false} NumberOfDecimal(n: nat)
    ensures NumberOf(Decimal(n)) == n
  {
    if n >= 10 {
      NumberOfDecimal(n / 10);
      NumberOfAppended(Decimal(n / 10), DigitChar(n % 10));
    }
  }

  lemma NumberOfPadded(n: nat)
    ensures AllDigits(Padded(n)) && NumberOf(Padded(n)) == n
  {
    if n < 1_000_000 {
      Pow10OfSix();
      NumberOfDigits(n, 6);
    } else {
      NumberOfDecimal(n);
    }
  }

  lemma Pow10OfSix()
    ensures Pow10(6) == 1_000_000
  {
    assert Pow10(3) == 1000;
    assert Pow10(4) == 10000;
    assert Pow10(5) == 100000;
  }

  lemma ReferenceParts(day: string, sequence: nat)
    requires IsDay(day)
    ensures var r := Reference(day, sequence); |r| > 13 && r[4..12] == day && r[13..] == Padded(sequence)
  {
    var r := Reference(day, sequence);
    assert r[4..] == day + ("-" + Padded(sequence));
    assert r[4..12] == r[4..][..8];
    assert r[13..] == r[4..][9..];
    NumberOfPadded(sequence);
    assert |Padded(sequence)| > 0;
  }

  /** A reference names one day and one place in that day's series. */
  lemma ReferenceIsInjective(d1: string, n1: nat, d2: string, n2: nat)
    requires IsDay(d1) && IsDay(d2) && Reference(d1, n1) == Reference(d2, n2)
    ensures d1 == d2 && n1 == n2
  {
    ReferenceParts(d1, n1);
    ReferenceParts(d2, n2);
    NumberOfPadded(n1);
    NumberOfPadded(n2);
  }

  // ---------------------------------------------------------------- commands

  datatype Error =
    | InvalidTrackingCode | PhotographsRequired | LiabilityEndedAtTheDoor
    | ClaimAlreadyOpenForThisParcel(reference: string)
    | ClaimNotFound | NotYourClaim | ClaimTransitionNotAllowed | OnlySupportOrOperationsReviews | ClaimAlreadyDecided
    | OnlyOperationsDecidesAClaim | CompensationAmountRequired | CustodyRecordsNotReviewed | RejectionReasonRequired
    | NoReturnWindowAfterAcceptance
    | IncidentNeedsAParcel | IncidentNotFound | IncidentTransitionNotAllowed | OnlyOperationsResolvesAnIncident
    | ResolutionNoteRequired

  datatype Filing = Filing(
    trackingCode: string, kind: ClaimKind, openedBy: OpenedBy, opener: Option<Uuid>, sender: Option<Uuid>,
    description: Option<string>, evidence: seq<Media>, boundary: CustodyBoundary)

  datatype IncidentReport = IncidentReport(
    kind: IncidentKind, driver: Uuid, trackingCode: Option<string>, note: Option<string>, evidence: seq<Media>)

  datatype ClaimCommand =
    | Withdraw(principal: Uuid)
    | StartReview(actor: Actor, custodyReviewed: bool)
    | RecordCustodyReview(actor: Actor)
    | Approve(actor: Actor, compensation: Option<nat>)
    | Reject(actor: Actor, reason: Option<RejectionReason>, note: Option<string>)

  datatype IncidentCommand =
    | StartInvestigation(actor: Actor)
    | Resolve(actor: Actor, note: string, linkedClaim: Option<Uuid>)

  /** The rows, in the order they were first saved, and each day's last reference number. */
  datatype State = State(claims: seq<Claim>, incidents: seq<Incident>, counters: map<string, nat>)

  const EMPTY := State([], [], map[])

  function LastNumber(counters: map<string, nat>, day: string): nat {
    if day in counters then counters[day] else 0
  }

  function FindClaim(claims: seq<Claim>, reference: string): (r: Option<Claim>)
    ensures r.Some? ==> r.value in claims && r.value.reference == reference
    ensures r.None? ==> forall c :: c in claims ==> c.reference != reference
  {
    if claims == [] then None
    else if claims[0].reference == reference then Some(claims[0])
    else FindClaim(claims[1..], reference)
  }

  function FindOpen(claims: seq<Claim>, trackingCode: string): (r: Option<Claim>)
    ensures r.None? ==> forall c :: c in claims && c.trackingCode == trackingCode ==> !IsOpen(c.status)
  {
    if claims == [] then None
    else if claims[0].trackingCode == trackingCode && IsOpen(claims[0].status) then Some(claims[0])
    else FindOpen(claims[1..], trackingCode)
  }

  function FindIncident(incidents: seq<Incident>, reference: string): (r: Option<Incident>)
    ensures r.Some? ==> r.value in incidents && r.value.reference == reference
    ensures r.None? ==> forall c :: c in incidents ==> c.reference != reference
  {
    if incidents == [] then None
    else if incidents[0].reference == reference then Some(incidents[0])
    else FindIncident(incidents[1..], reference)
  }

  /** Saving under an id that is there replaces that row in its place; a new id goes to the end. */
  function SaveClaim(claims: seq<Claim>, c: Claim): seq<Claim> {
    if claims == [] then [c]
    else if claims[0].id == c.id then [c] + claims[1..]
    else [claims[0]] + SaveClaim(claims[1..], c)
  }

  function SaveIncident(incidents: seq<Incident>, c: Incident): seq<Incident> {
    if incidents == [] then [c]
    else if incidents[0].id == c.id then [c] + incidents[1..]
    else [incidents[0]] + SaveIncident(incidents[1..], c)
  }

  // ---------------------------------------------------------------- what a command does

  function NonEmpty(note: Option<string>): Option<string> {
    if note.Some? && Strip(note.value) != "" then Some(Strip(note.value)) else None
  }

  function FilingError(f: Filing, isCode: string -> bool): Option<Error> {
    if !isCode(f.trackingCode) then Some(InvalidTrackingCode)
    else if f.kind.DamagedInTransit? && f.evidence == [] then Some(PhotographsRequired)
    else if !StillLiable(f.boundary) then Some(LiabilityEndedAtTheDoor)
    else None
  }

  function Filed(f: Filing, id: Uuid, reference: string, now: nat): Claim {
    Claim(id, reference, f.trackingCode, f.kind, f.openedBy, f.opener, f.sender, f.description, f.evidence, f.boundary,
          Submitted, Some(now), None, None, false, None, None, None, None, None, None, 1)
  }

  function FileClaim(s: State, f: Filing, id: Uuid, now: Moment,
                     isCode: string -> bool): (State, Result<Claim, Error>) {
    if FilingError(f, isCode).Some? then (s, Err(FilingError(f, isCode).value))
    else if FindOpen(s.claims, f.trackingCode).Some? then
      (s, Err(ClaimAlreadyOpenForThisParcel(FindOpen(s.claims, f.trackingCode).value.reference)))
    else
      var n := LastNumber(s.counters, now.day) + 1;
      var c := Filed(f, id, Reference(now.day, n), now.at);
      (State(SaveClaim(s.claims, c), s.incidents, s.counters[now.day := n]), Ok(c))
  }

  /** What is refused before the claim is even looked up. */
  function RefusedOutright(cmd: ClaimCommand): Option<Error> {
    match cmd
    case Withdraw(_) => None
    case StartReview(actor, _) => if actor.MayReviewAClaim() then None else Some(OnlySupportOrOperationsReviews)
    case RecordCustodyReview(actor) => if actor.MayReviewAClaim() then None else Some(OnlySupportOrOperationsReviews)
    case Approve(actor, compensation) =>
      if !actor.MayDecideAClaim() then Some(OnlyOperationsDecidesAClaim)
      else if compensation.None? || compensation.value == 0 then Some(CompensationAmountRequired)
      else None
    case Reject(actor, reason, note) =>
      if !actor.MayDecideAClaim() then Some(OnlyOperationsDecidesAClaim)
      else if reason.None? || (reason.value.Other? && NonEmpty(note).None?) then Some(RejectionReasonRequired)
      else None
  }

  predicate IsTheirs(c: Claim, principal: Uuid) {
    c.opener == Some(principal) || c.sender == Some(principal)
  }

  /** The claim after an accepted command, or why the command is refused. */
  function Decide(c: Claim, cmd: ClaimCommand, now: nat): Result<Claim, Error> {
    match cmd
    case Withdraw(principal) =>
      if !IsTheirs(c, principal) then Err(NotYourClaim)
      else if !CanMove(c.status, Withdrawn) then Err(ClaimTransitionNotAllowed)
      else Ok(c.(status := Withdrawn, withdrawnAt := Some(now), version := c.version + 1))
    case StartReview(actor, reviewed) =>
      if !CanMove(c.status, UnderReview) then Err(ClaimTransitionNotAllowed)
      else Ok(c.(status := UnderReview, reviewStartedAt := Some(now), reviewer := Some(actor.principal),
                 custodyReviewed := reviewed,
                 version := c.version + 1))
    case RecordCustodyReview(actor) =>
      if IsDecided(c.status) then Err(ClaimAlreadyDecided)
      else Ok(c.(custodyReviewed := true, reviewer := Some(actor.principal), version := c.version + 1))
    case Approve(actor, compensation) =>
      if !CanMove(c.status, Approved) then Err(ClaimTransitionNotAllowed)
      else if !c.custodyReviewed then Err(CustodyRecordsNotReviewed)
      else if !StillLiable(c.boundary) then Err(LiabilityEndedAtTheDoor)
      else Ok(c.(status := Approved, compensation := compensation, decidedAt := Some(now),
                 decider := Some(actor.principal),
                 version := c.version + 1))
    case Reject(actor, reason, note) =>
      if !CanMove(c.status, Rejected) then Err(ClaimTransitionNotAllowed)
      else if !c.custodyReviewed then Err(CustodyRecordsNotReviewed)
      else Ok(c.(status := Rejected, rejection := reason, rejectionNote := NonEmpty(note), decidedAt := Some(now),
                 decider := Some(actor.principal), version := c.version + 1))
  }

  function OnClaim(s: State, reference: string, cmd: ClaimCommand, now: nat): (State, Result<Claim, Error>) {
    if RefusedOutright(cmd).Some? then (s, Err(RefusedOutright(cmd).value))
    else if FindClaim(s.claims, reference).None? then (s, Err(ClaimNotFound))
    else
      var r := Decide(FindClaim(s.claims, reference).value, cmd, now);
      if r.Err? then (s, r) else (s.(claims := SaveClaim(s.claims, r.value)), r)
  }

  function ReportError(r: IncidentReport, isCode: string -> bool): Option<Error> {
    if !IsAboutAParcel(r.kind) then None
    else if r.trackingCode.None? then Some(IncidentNeedsAParcel)
    else if !isCode(r.trackingCode.value) then Some(InvalidTrackingCode)
    else None
  }

  function Recorded(r: IncidentReport, id: Uuid, reference: string, now: nat): Incident {
    Incident(id, reference, r.kind, r.driver, now, if IsAboutAParcel(r.kind) then r.trackingCode
          else None, NonEmpty(r.note),
             r.evidence, Reported, None, None, None, None, None, 1)
  }

  function ReportIncident(s: State, r: IncidentReport, id: Uuid, now: Moment,
                          isCode: string -> bool): (State, Result<Incident, Error>) {
    if ReportError(r, isCode).Some? then (s, Err(ReportError(r, isCode).value))
    else
      var n := LastNumber(s.counters, now.day) + 1;
      var c := Recorded(r, id, Reference(now.day, n), now.at);
      (State(s.claims, SaveIncident(s.incidents, c), s.counters[now.day := n]), Ok(c))
  }

  function RefusedAtOnce(cmd: IncidentCommand): Option<Error> {
    if !cmd.actor.MayResolveAnIncident() then Some(OnlyOperationsResolvesAnIncident)
    else if cmd.Resolve? && Strip(cmd.note) == "" then Some(ResolutionNoteRequired)
    else None
  }

  function Advance(c: Incident, cmd: IncidentCommand, now: nat): Result<Incident, Error> {
    match cmd
    case StartInvestigation(_) =>
      if !CanAdvance(c.status, UnderInvestigation) then Err(IncidentTransitionNotAllowed)
      else Ok(c.(status := UnderInvestigation, investigationStartedAt := Some(now), version := c.version + 1))
    case Resolve(actor, note, linked) =>
      if !CanAdvance(c.status, Resolved) then Err(IncidentTransitionNotAllowed)
      else Ok(c.(status := Resolved, resolvedAt := Some(now), resolver := Some(actor.principal),
                 resolutionNote := Some(Strip(note)),
                 linkedClaim := linked, version := c.version + 1))
  }

  function OnIncident(s: State, reference: string, cmd: IncidentCommand, now: nat): (State, Result<Incident, Error>) {
    if RefusedAtOnce(cmd).Some? then (s, Err(RefusedAtOnce(cmd).value))
    else if FindIncident(s.incidents, reference).None? then (s, Err(IncidentNotFound))
    else
      var r := Advance(FindIncident(s.incidents, reference).value, cmd, now);
      if r.Err? then (s, r) else (s.(incidents := SaveIncident(s.incidents, r.value)), r)
  }

  // ---------------------------------------------------------------- the constraints of the migration

  /** The CHECKs on a claim row. */
  predicate ClaimChecks(c: Claim) {
    && (IsDecided(c.status) ==> c.custodyReviewed)
    && (c.status.Approved? ==> c.compensation.Some? && c.decidedAt.Some? && c.decider.Some?)
    && (c.status.Rejected? ==> c.rejection.Some? && c.decidedAt.Some?)
    && (c.compensation.Some? ==> c.status.Approved? && c.compensation.value > 0)
    && StillLiable(c.boundary)
    && c.version >= 1
  }

  /**
   What the service promises beyond the CHECKs: a decision only on a reviewed claim, a reason with its documentation.
   */
  predicate ClaimPromises(c: Claim) {
    && (c.status.UnderReview? || IsDecided(c.status) ==> c.reviewStartedAt.Some? && c.reviewer.Some?)
    && (c.decidedAt.Some? <==> IsDecided(c.status))
    && (c.rejection.Some? <==> c.status.Rejected?)
    && (c.rejection == Some(Other) ==> c.rejectionNote.Some?)
    && (c.withdrawnAt.Some? <==> c.status.Withdrawn?)
    && (c.kind.DamagedInTransit? ==> c.evidence != [])
    && c.submittedAt.Some?
  }

  /** btrim removes only the space character. */
  predicate SurvivesTrim(note: Option<string>) {
    note.Some? && exists i :: 0 <= i < |note.value| && note.value[i] != ' '
  }

  /** The CHECKs on an incident row. */
  predicate IncidentChecks(c: Incident) {
    && (c.kind.VehicleOrSafetyIssue? <==> c.trackingCode.None?)
    && (c.status.Resolved? ==> c.resolvedAt.Some? && c.resolver.Some? && SurvivesTrim(c.resolutionNote))
    && (c.resolvedAt.Some? ==> c.status.Resolved?)
  }

  /** The partial unique index: at most one open claim for a parcel. */
  predicate OneOpenPerParcel(claims: seq<Claim>) {
    forall i, j :: 0 <= i < j < |claims| && IsOpen(claims[i].status) && IsOpen(claims[j].status) ==>
      claims[i].trackingCode != claims[j].trackingCode
  }

  predicate UniqueIds(s: State) {
    && (forall i, j :: 0 <= i < j < |s.claims| ==> s.claims[i].id != s.claims[j].id)
    && (forall i, j :: 0 <= i < j < |s.incidents| ==> s.incidents[i].id != s.incidents[j].id)
  }

  /** No two rows, claim or incident, wear the same reference. */
  predicate UniqueReferences(s: State) {
    && (forall i, j :: 0 <= i < j < |s.claims| ==> s.claims[i].reference != s.claims[j].reference)
    && (forall i, j :: 0 <= i < j < |s.incidents| ==> s.incidents[i].reference != s.incidents[j].reference)
    && (forall i, j :: 0 <= i < |s.claims| && 0 <= j < |s.incidents| ==>
          s.claims[i].reference != s.incidents[j].reference)
  }

  /** A reference the day's counter has given out. */
  ghost predicate GivenOut(counters: map<string, nat>, reference: string) {
    exists day, n: nat :: IsDay(day) && 1 <= n <= LastNumber(counters, day) && reference == Reference(day, n)
  }

  ghost predicate References(s: State) {
    && UniqueReferences(s)
    && (forall c :: c in s.claims ==> GivenOut(s.counters, c.reference))
    && (forall c :: c in s.incidents ==> GivenOut(s.counters, c.reference))
  }

  predicate RowsAreSound(s: State) {
    && (forall c :: c in s.claims ==> ClaimChecks(c) && ClaimPromises(c))
    && (forall c :: c in s.incidents ==> IncidentChecks(c))
  }

  /** Everything the migration promises about the two tables. */
  ghost predicate Sound(s: State) {
    RowsAreSound(s) && OneOpenPerParcel(s.claims) && UniqueIds(s) && References(s)
  }

  // ---------------------------------------------------------------- saving

  lemma {:induction false} SaveReplaces(claims: seq<Claim>, c: Claim, i: nat)
    requires i < |claims| && claims[i].id == c.id
    requires forall j, k :: 0 <= j < k < |claims| ==> claims[j].id != claims[k].id
    ensures SaveClaim(claims, c) == claims[i := c]
  {
    if i > 0 {
      SaveReplaces(claims[1..], c, i - 1);
    }
  }

  lemma {:induction false} SaveAppends(claims: seq<Claim>, c: Claim)
    requires forall j :: 0 <= j < |claims| ==> claims[j].id != c.id
    ensures SaveClaim(claims, c) == claims + [c]
  {
    if claims != [] {
      SaveAppends(claims[1..], c);
    }
  }

  lemma {:induction false} SaveReplacesIncident(incidents: seq<Incident>, c: Incident, i: nat)
    requires i < |incidents| && incidents[i].id == c.id
    requires forall j, k :: 0 <= j < k < |incidents| ==> incidents[j].id != incidents[k].id
    ensures SaveIncident(incidents, c) == incidents[i := c]
  {
    if i > 0 {
      SaveReplacesIncident(incidents[1..], c, i - 1);
    }
  }

  lemma {:induction false} SaveAppendsIncident(incidents: seq<Incident>, c: Incident)
    requires forall j :: 0 <= j < |incidents| ==> incidents[j].id != c.id
    ensures SaveIncident(incidents, c) == incidents + [c]
  {
    if incidents != [] {
      SaveAppendsIncident(incidents[1..], c);
    }
  }

  // ---------------------------------------------------------------- every command keeps the constraints

  /** What no command changes about a claim. */
  predicate SameClaim(a: Claim, b: Claim) {
    && a.id == b.id && a.reference == b.reference && a.trackingCode == b.trackingCode && a.kind == b.kind
    && a.boundary == b.boundary && a.evidence == b.evidence && a.submittedAt == b.submittedAt
    && a.openedBy == b.openedBy && a.opener == b.opener && a.sender == b.sender && a.description == b.description
  }

  lemma DecideKeepsChecks(c: Claim, cmd: ClaimCommand, now: nat)
    requires ClaimChecks(c) && ClaimPromises(c) && RefusedOutright(cmd).None?
    ensures var r := Decide(c, cmd, now);
      r.Ok? ==>
        && ClaimChecks(r.value) && ClaimPromises(r.value) && SameClaim(c, r.value)
        && r.value.version == c.version + 1 && (IsOpen(r.value.status) ==> IsOpen(c.status))
  {
  }

  lemma StripSurvivesTrim(note: string)
    requires Strip(note) != ""
    ensures SurvivesTrim(Some(Strip(note)))
  {
    StripIsTrimmed(note);
    assert Strip(note)[0] != ' ';
  }

  lemma AdvanceKeepsChecks(c: Incident, cmd: IncidentCommand, now: nat)
    requires IncidentChecks(c) && RefusedAtOnce(cmd).None?
    ensures var r := Advance(c, cmd, now);
      r.Ok? ==>
        && IncidentChecks(r.value) && r.value.id == c.id && r.value.reference == c.reference && r.value.kind == c.kind
        && r.value.trackingCode == c.trackingCode && r.value.version == c.version + 1
  {
    if cmd.Resolve? {
      StripSurvivesTrim(cmd.note);
    }
  }

  lemma ReplaceClaimKeeps(s: State, i: nat, c: Claim)
    requires Sound(s) && i < |s.claims|
    requires ClaimChecks(c) && ClaimPromises(c) && SameClaim(s.claims[i], c)
      && (IsOpen(c.status) ==> IsOpen(s.claims[i].status))
    ensures Sound(s.(claims := s.claims[i := c]))
  {
    var t := s.(claims := s.claims[i := c]);
    assert s.claims[i] in s.claims;
    forall d | d in t.claims ensures ClaimChecks(d) && ClaimPromises(d) && GivenOut(t.counters, d.reference) {
      var j :| 0 <= j < |t.claims| && t.claims[j] == d;
      assert s.claims[j] in s.claims;
    }
  }

  lemma ReplaceIncidentKeeps(s: State, i: nat, c: Incident)
    requires Sound(s) && i < |s.incidents|
    requires IncidentChecks(c) && c.id == s.incidents[i].id && c.reference == s.incidents[i].reference
    ensures Sound(s.(incidents := s.incidents[i := c]))
  {
    var t := s.(incidents := s.incidents[i := c]);
    assert s.incidents[i] in s.incidents;
    forall d | d in t.incidents ensures IncidentChecks(d) && GivenOut(t.counters, d.reference) {
      var j :| 0 <= j < |t.incidents| && t.incidents[j] == d;
      assert s.incidents[j] in s.incidents;
    }
  }

  /** The next number of the day has not been given out, and after it is, everything given out before still is. */
  lemma NextReference(counters: map<string, nat>, day: string, given: string)
    requires IsDay(day) && GivenOut(counters, given)
    ensures var n := LastNumber(counters, day) + 1;
      given != Reference(day, n) && GivenOut(counters[day := n], given)
  {
    var d, k: nat :| IsDay(d) && 1 <= k <= LastNumber(counters, d) && given == Reference(d, k);
    var n := LastNumber(counters, day) + 1;
    if given == Reference(day, n) {
      ReferenceIsInjective(d, k, day, n);
    }
    assert k <= LastNumber(counters[day := n], d);
  }

  lemma NewReferenceIsFree(s: State, day: string)
    requires References(s) && IsDay(day)
    ensures var n := LastNumber(s.counters, day) + 1; StillGivenOut(s, Reference(day, n), s.counters[day := n])
  {
    var n := LastNumber(s.counters, day) + 1;
    assert 1 <= n <= LastNumber(s.counters[day := n], day);
    forall c | c in s.claims ensures c.reference != Reference(day, n) && GivenOut(s.counters[day := n], c.reference) {
      NextReference(s.counters, day, c.reference);
    }
    forall c | c in s.incidents
      ensures c.reference != Reference(day, n) && GivenOut(s.counters[day := n], c.reference)
    {
      NextReference(s.counters, day, c.reference);
    }
  }

  ghost predicate FitsClaims(s: State, c: Claim) {
    forall d :: d in s.claims ==>
      && d.id != c.id && d.reference != c.reference
      && (d.trackingCode == c.trackingCode ==> !IsOpen(d.status))
  }

  ghost predicate StillGivenOut(s: State, reference: string, counters: map<string, nat>) {
    && (forall d :: d in s.claims ==> d.reference != reference && GivenOut(counters, d.reference))
    && (forall d :: d in s.incidents ==> d.reference != reference && GivenOut(counters, d.reference))
    && GivenOut(counters, reference)
  }

  lemma AppendClaimKeepsReferences(s: State, c: Claim, counters: map<string, nat>)
    requires References(s) && StillGivenOut(s, c.reference, counters)
    ensures References(State(s.claims + [c], s.incidents, counters))
  {
    assert forall i :: 0 <= i < |s.claims| ==> s.claims[i] in s.claims;
    assert forall i :: 0 <= i < |s.incidents| ==> s.incidents[i] in s.incidents;
  }

  lemma AppendIncidentKeepsReferences(s: State, c: Incident, counters: map<string, nat>)
    requires References(s) && StillGivenOut(s, c.reference, counters)
    ensures References(State(s.claims, s.incidents + [c], counters))
  {
    assert forall i :: 0 <= i < |s.claims| ==> s.claims[i] in s.claims;
    assert forall i :: 0 <= i < |s.incidents| ==> s.incidents[i] in s.incidents;
  }

  lemma AppendClaimKeeps(s: State, c: Claim, counters: map<string, nat>)
    requires Sound(s) && ClaimChecks(c) && ClaimPromises(c) && FitsClaims(s, c)
      && StillGivenOut(s, c.reference, counters)
    ensures Sound(State(s.claims + [c], s.incidents, counters))
  {
    AppendClaimKeepsReferences(s, c, counters);
    assert forall i :: 0 <= i < |s.claims| ==> s.claims[i] in s.claims;
  }

  lemma AppendIncidentKeeps(s: State, c: Incident, counters: map<string, nat>)
    requires Sound(s) && IncidentChecks(c) && (forall d :: d in s.incidents ==> d.id != c.id)
    requires StillGivenOut(s, c.reference, counters)
    ensures Sound(State(s.claims, s.incidents + [c], counters))
  {
    AppendIncidentKeepsReferences(s, c, counters);
    assert forall i :: 0 <= i < |s.incidents| ==> s.incidents[i] in s.incidents;
  }

  lemma FiledIsSound(f: Filing, id: Uuid, reference: string, now: nat, isCode: string -> bool)
    requires FilingError(f, isCode).None?
    ensures ClaimChecks(Filed(f, id, reference, now)) && ClaimPromises(Filed(f, id, reference, now))
  {
  }

  lemma RecordedIsSound(r: IncidentReport, id: Uuid, reference: string, now: nat, isCode: string -> bool)
    requires ReportError(r, isCode).None?
    ensures IncidentChecks(Recorded(r, id, reference, now))
  {
  }

  /** Filing refuses without a trace, or adds one sound claim under a reference no row has. */
  lemma FileClaimKeeps(s: State, f: Filing, id: Uuid, now: Moment, isCode: string -> bool)
    requires Sound(s) && IsDay(now.day) && forall d :: d in s.claims ==> d.id != id
    ensures var r := FileClaim(s, f, id, now, isCode);
      && Sound(r.0)
      && (r.1.Err? ==> r.0 == s)
      && (r.1.Ok? ==>
            r.0.claims == s.claims + [r.1.value] && r.0.incidents == s.incidents && r.1.value.status.Submitted?)
  {
    var r := FileClaim(s, f, id, now, isCode);
    if r.1.Ok? {
      var c, n := r.1.value, LastNumber(s.counters, now.day) + 1;
      NewReferenceIsFree(s, now.day);
      FiledIsSound(f, id, Reference(now.day, n), now.at, isCode);
      assert FitsClaims(s, c);
      assert forall j :: 0 <= j < |s.claims| ==> s.claims[j] in s.claims;
      SaveAppends(s.claims, c);
      AppendClaimKeeps(s, c, s.counters[now.day := n]);
    }
  }

  lemma ReportIncidentKeeps(s: State, report: IncidentReport, id: Uuid, now: Moment, isCode: string -> bool)
    requires Sound(s) && IsDay(now.day) && forall d :: d in s.incidents ==> d.id != id
    ensures var r := ReportIncident(s, report, id, now, isCode);
      && Sound(r.0)
      && (r.1.Err? ==> r.0 == s)
      && (r.1.Ok? ==> r.0.claims == s.claims && r.0.incidents == s.incidents + [r.1.value])
  {
    var r := ReportIncident(s, report, id, now, isCode);
    if r.1.Ok? {
      var c, n := r.1.value, LastNumber(s.counters, now.day) + 1;
      NewReferenceIsFree(s, now.day);
      RecordedIsSound(report, id, Reference(now.day, n), now.at, isCode);
      assert forall j :: 0 <= j < |s.incidents| ==> s.incidents[j] in s.incidents;
      SaveAppendsIncident(s.incidents, c);
      AppendIncidentKeeps(s, c, s.counters[now.day := n]);
    }
  }

  /** Row i, the one with this reference, was decided on; nothing else changed. */
  predicate ClaimMoved(s: State, t: State, i: int, reference: string, cmd: ClaimCommand, now: nat) {
    && 0 <= i < |s.claims| && s.claims[i].reference == reference && RefusedOutright(cmd).None?
    && Decide(s.claims[i], cmd, now).Ok?
    && t == s.(claims := s.claims[i := Decide(s.claims[i], cmd, now).value])
  }

  predicate IncidentMoved(s: State, t: State, i: int, reference: string, cmd: IncidentCommand, now: nat) {
    && 0 <= i < |s.incidents| && s.incidents[i].reference == reference && RefusedAtOnce(cmd).None?
    && Advance(s.incidents[i], cmd, now).Ok?
    && t == s.(incidents := s.incidents[i := Advance(s.incidents[i], cmd, now).value])
  }

  lemma OnClaimKeeps(s: State, reference: string, cmd: ClaimCommand, now: nat)
    requires Sound(s)
    ensures var r := OnClaim(s, reference, cmd, now);
      && Sound(r.0)
      && (r.1.Err? ==> r.0 == s)
      && (r.1.Ok? ==> exists i :: ClaimMoved(s, r.0, i, reference, cmd, now))
  {
    var r := OnClaim(s, reference, cmd, now);
    if r.1.Ok? {
      var c := FindClaim(s.claims, reference).value;
      var i :| 0 <= i < |s.claims| && s.claims[i] == c;
      DecideKeepsChecks(c, cmd, now);
      SaveReplaces(s.claims, r.1.value, i);
      ReplaceClaimKeeps(s, i, r.1.value);
      assert ClaimMoved(s, r.0, i, reference, cmd, now);
    }
  }

  lemma OnIncidentKeeps(s: State, reference: string, cmd: IncidentCommand, now: nat)
    requires Sound(s)
    ensures var r := OnIncident(s, reference, cmd, now);
      && Sound(r.0)
      && (r.1.Err? ==> r.0 == s)
      && (r.1.Ok? ==> exists i :: IncidentMoved(s, r.0, i, reference, cmd, now))
  {
    var r := OnIncident(s, reference, cmd, now);
    if r.1.Ok? {
      var c := FindIncident(s.incidents, reference).value;
      var i :| 0 <= i < |s.incidents| && s.incidents[i] == c;
      AdvanceKeepsChecks(c, cmd, now);
      SaveReplacesIncident(s.incidents, r.1.value, i);
      ReplaceIncidentKeeps(s, i, r.1.value);
      assert IncidentMoved(s, r.0, i, reference, cmd, now);
    }
  }
}
