/**
 The claims and incident services over the shared in-memory rows, each command doing exactly what its specification
 says.
 */
module ClaimsService {
  import opened Wrappers
  import opened Json
  import opened Strings
  import C = Claims

  lemma SavedHere(claims: seq<C.Claim>, i: nat, claim: C.Claim)
    requires i < |claims|
    ensures claims[..i] + C.SaveClaim(claims[i..], claim) ==
      if claims[i].id == claim.id then claims[i := claim] else claims[..i + 1] + C.SaveClaim(claims[i + 1..], claim)
  {
    assert claims[i..][1..] == claims[i + 1..];
    assert claims[..i] + ([claims[i]] + C.SaveClaim(claims[i + 1..], claim)) ==
      claims[..i + 1] + C.SaveClaim(claims[i + 1..], claim);
    assert claims[..i] + ([claim] + claims[i + 1..]) == claims[i := claim];
  }

  lemma SavedIncidentHere(incidents: seq<C.Incident>, i: nat, incident: C.Incident)
    requires i < |incidents|
    ensures incidents[..i] + C.SaveIncident(incidents[i..], incident) ==
      if incidents[i].id == incident.id then incidents[i := incident]
      else incidents[..i + 1] + C.SaveIncident(incidents[i + 1..], incident)
  {
    assert incidents[i..][1..] == incidents[i + 1..];
    assert incidents[..i] + ([incidents[i]] + C.SaveIncident(incidents[i + 1..], incident)) ==
      incidents[..i + 1] + C.SaveIncident(incidents[i + 1..], incident);
    assert incidents[..i] + ([incident] + incidents[i + 1..]) == incidents[i := incident];
  }

  /** The rows every request shares, in the order they were first saved. */
  class Database {
    var claims: seq<C.Claim>
    var incidents: seq<C.Incident>
    var counters: map<string, nat>

    constructor ()
      ensures Snapshot() == C.EMPTY
    {
      claims, incidents, counters := [], [], map[];
    }

    function Snapshot(): C.State
      reads this
    {
      C.State(claims, incidents, counters)
    }

    method FindByReference(reference: string) returns (r: Option<C.Claim>)
      ensures r == C.FindClaim(claims, reference)
    {
      for i := 0 to |claims|
        invariant C.FindClaim(claims, reference) == C.FindClaim(claims[i..], reference)
      {
        if claims[i].reference == reference {
          return Some(claims[i]);
        }
      }
      return None;
    }

    method FindOpenForParcel(trackingCode: string) returns (r: Option<C.Claim>)
      ensures r == C.FindOpen(claims, trackingCode)
    {
      for i := 0 to |claims|
        invariant C.FindOpen(claims, trackingCode) == C.FindOpen(claims[i..], trackingCode)
      {
        if claims[i].trackingCode == trackingCode && C.IsOpen(claims[i].status) {
          return Some(claims[i]);
        }
      }
      return None;
    }

    method FindIncidentByReference(reference: string) returns (r: Option<C.Incident>)
      ensures r == C.FindIncident(incidents, reference)
    {
      for i := 0 to |incidents|
        invariant C.FindIncident(incidents, reference) == C.FindIncident(incidents[i..], reference)
      {
        if incidents[i].reference == reference {
          return Some(incidents[i]);
        }
      }
      return None;
    }

    method SaveClaim(claim: C.Claim)
      modifies this`claims
      ensures claims == C.SaveClaim(old(claims), claim)
    {
      ghost var before := claims;
      for i := 0 to |claims|
        invariant claims == before
        invariant C.SaveClaim(before, claim) == before[..i] + C.SaveClaim(before[i..], claim)
      {
        SavedHere(before, i, claim);
        if claims[i].id == claim.id {
          claims := claims[i := claim];
          return;
        }
      }
      claims := claims + [claim];
    }

    method SaveIncident(incident: C.Incident)
      modifies this`incidents
      ensures incidents == C.SaveIncident(old(incidents), incident)
    {
      ghost var before := incidents;
      for i := 0 to |incidents|
        invariant incidents == before
        invariant C.SaveIncident(before, incident) == before[..i] + C.SaveIncident(before[i..], incident)
      {
        SavedIncidentHere(before, i, incident);
        if incidents[i].id == incident.id {
          incidents := incidents[i := incident];
          return;
        }
      }
      incidents := incidents + [incident];
    }

    /** One daily series for claims and incidents together. */
    method NextSequenceForDay(day: string) returns (n: nat)
      modifies this`counters
      ensures n == C.LastNumber(old(counters), day) + 1 && counters == old(counters)[day := n]
    {
      n := (if day in counters then counters[day] else 0) + 1;
      counters := counters[day := n];
    }
  }

  class ClaimService {
    const rows: Database

    constructor (rows: Database)
      ensures this.rows == rows
    {
      this.rows := rows;
    }

    method FileClaim(f: C.Filing, id: Uuid, now: C.Moment, isCode: string -> bool) returns (r: Result<C.Claim, C.Error>)
      modifies rows
      ensures (rows.Snapshot(), r) == C.FileClaim(old(rows.Snapshot()), f, id, now, isCode)
    {
      if !isCode(f.trackingCode) {
        return Err(C.InvalidTrackingCode);
      }
      if f.kind.DamagedInTransit? && f.evidence == [] {
        return Err(C.PhotographsRequired);
      }
      if !C.StillLiable(f.boundary) {
        return Err(C.LiabilityEndedAtTheDoor);
      }
      var existing := rows.FindOpenForParcel(f.trackingCode);
      if existing.Some? {
        return Err(C.ClaimAlreadyOpenForThisParcel(existing.value.reference));
      }
      var n := rows.NextSequenceForDay(now.day);
      var claim := C.Claim(
        id, C.Reference(now.day, n), f.trackingCode, f.kind, f.openedBy, f.opener, f.sender, f.description, f.evidence,
        f.boundary,
        C.Submitted, Some(now.at), None, None, false, None, None, None, None, None, None, 1);
      rows.SaveClaim(claim);
      return Ok(claim);
    }

    method Withdraw(reference: string, principal: Uuid, now: nat) returns (r: Result<C.Claim, C.Error>)
      modifies rows
      ensures (rows.Snapshot(), r) == C.OnClaim(old(rows.Snapshot()), reference, C.Withdraw(principal), now)
    {
      var found := rows.FindByReference(reference);
      if found.None? {
        return Err(C.ClaimNotFound);
      }
      var claim := found.value;
      if !(claim.opener == Some(principal) || claim.sender == Some(principal)) {
        return Err(C.NotYourClaim);
      }
      if !C.CanMove(claim.status, C.Withdrawn) {
        return Err(C.ClaimTransitionNotAllowed);
      }
      claim := claim.(status := C.Withdrawn);
      claim := claim.(withdrawnAt := Some(now));
      claim := claim.(version := claim.version + 1);
      rows.SaveClaim(claim);
      return Ok(claim);
    }

    /** Never accepted; the state is not even looked at. */
    method RequestReturn(trackingCode: string) returns (r: Result<(), C.Error>)
      ensures r == Err(C.NoReturnWindowAfterAcceptance)
    {
      return Err(C.NoReturnWindowAfterAcceptance);
    }

    method StartReview(reference: string, actor: C.Actor, custodyReviewed: bool, now: nat)
      returns (r: Result<C.Claim, C.Error>)
      modifies rows
      ensures (rows.Snapshot(), r) == C.OnClaim(old(rows.Snapshot()), reference, C.StartReview(actor, custodyReviewed),
                                                now)
    {
      if !actor.MayReviewAClaim() {
        return Err(C.OnlySupportOrOperationsReviews);
      }
      var found := rows.FindByReference(reference);
      if found.None? {
        return Err(C.ClaimNotFound);
      }
      var claim := found.value;
      if !C.CanMove(claim.status, C.UnderReview) {
        return Err(C.ClaimTransitionNotAllowed);
      }
      claim := MarkUnderReview(claim, actor, custodyReviewed, now);
      rows.SaveClaim(claim);
      return Ok(claim);
    }

    method MarkUnderReview(before: C.Claim, actor: C.Actor, custodyReviewed: bool, now: nat) returns (claim: C.Claim)
      requires C.CanMove(before.status, C.UnderReview)
      ensures C.Decide(before, C.StartReview(actor, custodyReviewed), now) == Ok(claim)
    {
      claim := before.(status := C.UnderReview);
      claim := claim.(reviewStartedAt := Some(now));
      claim := claim.(reviewer := Some(actor.principal));
      claim := claim.(custodyReviewed := custodyReviewed);
      claim := claim.(version := claim.version + 1);
    }

    method RecordCustodyReview(reference: string, actor: C.Actor, now: nat) returns (r: Result<C.Claim, C.Error>)
      modifies rows
      ensures (rows.Snapshot(), r) == C.OnClaim(old(rows.Snapshot()), reference, C.RecordCustodyReview(actor), now)
    {
      if !actor.MayReviewAClaim() {
        return Err(C.OnlySupportOrOperationsReviews);
      }
      var found := rows.FindByReference(reference);
      if found.None? {
        return Err(C.ClaimNotFound);
      }
      var claim := found.value;
      if C.IsDecided(claim.status) {
        return Err(C.ClaimAlreadyDecided);
      }
      claim := claim.(custodyReviewed := true);
      claim := claim.(reviewer := Some(actor.principal));
      claim := claim.(version := claim.version + 1);
      rows.SaveClaim(claim);
      return Ok(claim);
    }

    method Approve(reference: string, actor: C.Actor, compensation: Option<nat>, now: nat)
      returns (r: Result<C.Claim, C.Error>)
      modifies rows
      ensures (rows.Snapshot(), r) == C.OnClaim(old(rows.Snapshot()), reference, C.Approve(actor, compensation), now)
    {
      if !actor.MayDecideAClaim() {
        return Err(C.OnlyOperationsDecidesAClaim);
      }
      if compensation.None? || compensation.value == 0 {
        return Err(C.CompensationAmountRequired);
      }
      var found := rows.FindByReference(reference);
      if found.None? {
        return Err(C.ClaimNotFound);
      }
      var claim := found.value;
      if !C.CanMove(claim.status, C.Approved) {
        return Err(C.ClaimTransitionNotAllowed);
      }
      if !claim.custodyReviewed {
        return Err(C.CustodyRecordsNotReviewed);
      }
      if !C.StillLiable(claim.boundary) {
        return Err(C.LiabilityEndedAtTheDoor);
      }
      claim := MarkApproved(claim, actor, compensation, now);
      rows.SaveClaim(claim);
      return Ok(claim);
    }

    method MarkApproved(before: C.Claim, actor: C.Actor, compensation: Option<nat>, now: nat) returns (claim: C.Claim)
      requires C.CanMove(before.status, C.Approved) && before.custodyReviewed && C.StillLiable(before.boundary)
      ensures C.Decide(before, C.Approve(actor, compensation), now) == Ok(claim)
    {
      claim := before.(status := C.Approved);
      claim := claim.(compensation := compensation);
      claim := claim.(decidedAt := Some(now));
      claim := claim.(decider := Some(actor.principal));
      claim := claim.(version := claim.version + 1);
    }

    method Reject(reference: string, actor: C.Actor, reason: Option<C.RejectionReason>, note: Option<string>, now: nat)
      returns (r: Result<C.Claim, C.Error>)
      modifies rows
      ensures (rows.Snapshot(), r) == C.OnClaim(old(rows.Snapshot()), reference, C.Reject(actor, reason, note), now)
    {
      if !actor.MayDecideAClaim() {
        return Err(C.OnlyOperationsDecidesAClaim);
      }
      if reason.None? {
        return Err(C.RejectionReasonRequired);
      }
      if reason.value.Other? && C.NonEmpty(note).None? {
        return Err(C.RejectionReasonRequired);
      }
      var found := rows.FindByReference(reference);
      if found.None? {
        return Err(C.ClaimNotFound);
      }
      var claim := found.value;
      if !C.CanMove(claim.status, C.Rejected) {
        return Err(C.ClaimTransitionNotAllowed);
      }
      if !claim.custodyReviewed {
        return Err(C.CustodyRecordsNotReviewed);
      }
      claim := MarkRejected(claim, actor, reason, note, now);
      rows.SaveClaim(claim);
      return Ok(claim);
    }

    method MarkRejected(before: C.Claim, actor: C.Actor, reason: Option<C.RejectionReason>, note: Option<string>,
                        now: nat)
      returns (claim: C.Claim)
      requires C.CanMove(before.status, C.Rejected) && before.custodyReviewed
      ensures C.Decide(before, C.Reject(actor, reason, note), now) == Ok(claim)
    {
      claim := before.(status := C.Rejected);
      claim := claim.(rejection := reason);
      claim := claim.(rejectionNote := C.NonEmpty(note));
      claim := claim.(decidedAt := Some(now));
      claim := claim.(decider := Some(actor.principal));
      claim := claim.(version := claim.version + 1);
    }
  }

  class IncidentService {
    const rows: Database

    constructor (rows: Database)
      ensures this.rows == rows
    {
      this.rows := rows;
    }

    method Report(report: C.IncidentReport, id: Uuid, now: C.Moment, isCode: string -> bool)
      returns (r: Result<C.Incident, C.Error>)
      modifies rows
      ensures (rows.Snapshot(), r) == C.ReportIncident(old(rows.Snapshot()), report, id, now, isCode)
    {
      if C.IsAboutAParcel(report.kind) {
        if report.trackingCode.None? {
          return Err(C.IncidentNeedsAParcel);
        }
        if !isCode(report.trackingCode.value) {
          return Err(C.InvalidTrackingCode);
        }
      }
      var n := rows.NextSequenceForDay(now.day);
      var incident := C.Incident(
        id, C.Reference(now.day, n), report.kind, report.driver, now.at,
        if C.IsAboutAParcel(report.kind) then report.trackingCode else None, C.NonEmpty(report.note), report.evidence,
        C.Reported, None, None, None, None, None, 1);
      rows.SaveIncident(incident);
      return Ok(incident);
    }

    method StartInvestigation(reference: string, actor: C.Actor, now: nat) returns (r: Result<C.Incident, C.Error>)
      modifies rows
      ensures (rows.Snapshot(), r) == C.OnIncident(old(rows.Snapshot()), reference, C.StartInvestigation(actor), now)
    {
      if !actor.MayResolveAnIncident() {
        return Err(C.OnlyOperationsResolvesAnIncident);
      }
      r := Advance(reference, C.StartInvestigation(actor), now);
    }

    method Resolve(reference: string, actor: C.Actor, note: string, linkedClaim: Option<Uuid>, now: nat)
      returns (r: Result<C.Incident, C.Error>)
      modifies rows
      ensures (rows.Snapshot(), r) == C.OnIncident(old(rows.Snapshot()), reference, C.Resolve(actor, note, linkedClaim),
                                                   now)
    {
      if !actor.MayResolveAnIncident() {
        return Err(C.OnlyOperationsResolvesAnIncident);
      }
      if Strip(note) == "" {
        return Err(C.ResolutionNoteRequired);
      }
      r := Advance(reference, C.Resolve(actor, note, linkedClaim), now);
    }

    method Advance(reference: string, cmd: C.IncidentCommand, now: nat) returns (r: Result<C.Incident, C.Error>)
      requires C.RefusedAtOnce(cmd).None?
      modifies rows
      ensures (rows.Snapshot(), r) == C.OnIncident(old(rows.Snapshot()), reference, cmd, now)
    {
      var found := rows.FindIncidentByReference(reference);
      if found.None? {
        return Err(C.IncidentNotFound);
      }
      var incident := found.value;
      var target := if cmd.Resolve? then C.Resolved else C.UnderInvestigation;
      if !C.CanAdvance(incident.status, target) {
        return Err(C.IncidentTransitionNotAllowed);
      }
      incident := Moved(incident, cmd, now);
      rows.SaveIncident(incident);
      return Ok(incident);
    }

    /** The changes to the incident itself, field by field. */
    method Moved(before: C.Incident, cmd: C.IncidentCommand, now: nat) returns (incident: C.Incident)
      requires C.CanAdvance(before.status, if cmd.Resolve? then C.Resolved else C.UnderInvestigation)
      ensures C.Advance(before, cmd, now) == Ok(incident)
    {
      incident := before.(status := if cmd.Resolve? then C.Resolved else C.UnderInvestigation);
      if incident.status.UnderInvestigation? {
        incident := incident.(investigationStartedAt := Some(now));
      }
      if incident.status.Resolved? {
        incident := incident.(resolvedAt := Some(now));
        incident := incident.(resolver := Some(cmd.actor.principal));
        incident := incident.(resolutionNote := Some(Strip(cmd.note)));
        incident := incident.(linkedClaim := cmd.linkedClaim);
      }
      incident := incident.(version := incident.version + 1);
    }
  }
}
