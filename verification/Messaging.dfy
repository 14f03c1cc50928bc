/** Inbox decisions of the messaging conformance package: leases, duplicates, broker actions, retries, identities. */
module Messaging {
  import opened Wrappers
  import opened Json
  import Strings

  /** Points in time are only compared and shifted. */
  type Instant = int

  datatype InboxStatus = Received | Processing | Processed | Failed | Quarantined

  datatype BrokerAction = Ack | Nak | Defer

  datatype QuarantinePolicy = AckTerminal | ReplayReset

  datatype RetryClass = Transient | Permanent | Poison

  // ---------------------------------------------------------------- leases

  predicate IsLeaseExpired(leaseUntil: Option<Instant>, now: Instant) {
    leaseUntil.None? || now >= leaseUntil.value
  }

  predicate IsLeaseActive(leaseUntil: Option<Instant>, now: Instant) {
    leaseUntil.Some? && now < leaseUntil.value
  }

  /** A lease is always exactly one of the two, and once expired it stays so. */
  lemma LeaseDichotomy(leaseUntil: Option<Instant>, now: Instant, later: Instant)
    ensures IsLeaseExpired(leaseUntil, now) <==> !IsLeaseActive(leaseUntil, now)
    ensures IsLeaseExpired(leaseUntil, now) && now <= later ==> IsLeaseExpired(leaseUntil, later)
  {
  }

  // ---------------------------------------------------------------- duplicate deliveries

  datatype DuplicateDecision = DuplicateDecision(action: BrokerAction, rerun: bool, reason: string)

  /** What a duplicate delivery of (consumer, event id) asks for, given the row it meets. */
  function DecideDuplicate(status: InboxStatus, leaseUntil: Option<Instant>, now: Instant, policy: QuarantinePolicy)
    : (d: DuplicateDecision)
    ensures d.rerun <==> d.action == Nak
    ensures d.action == Ack <==> status == Processed || (status == Quarantined && policy.AckTerminal?)
    ensures d.action == Defer <==> status == Processing && !IsLeaseExpired(leaseUntil, now)
  {
    match status
    case Processed => DuplicateDecision(Ack, false, "terminal_processed_duplicate")
    case Quarantined =>
      if policy.ReplayReset? then DuplicateDecision(Nak, true, "quarantined_replay_reset")
      else DuplicateDecision(Ack, false, "quarantined_terminal_duplicate")
    case Failed => DuplicateDecision(Nak, true, "retryable_failed_duplicate")
    case Processing =>
      if IsLeaseExpired(leaseUntil, now) then DuplicateDecision(Nak, true, "expired_processing_lease_reclaim")
      else if IsLeaseActive(leaseUntil, now) then
        DuplicateDecision(Defer, false, "active_processing_lease_no_second_effect")
      else DuplicateDecision(Nak, true, "processing_without_lease_reclaim")
    case Received => DuplicateDecision(Nak, true, "incomplete_received_redelivery")
  }

  function DecidePostCommit(committed: InboxStatus): BrokerAction {
    match committed
    case Processed => Ack
    case Quarantined => Ack
    case _ => Nak
  }

  function DecideRollback(retryable: bool): BrokerAction {
    if retryable then Nak else Ack
  }

  /** After a commit the broker is told to forget the message exactly when its row will answer a redelivery with ACK. */
  lemma PostCommitAgreesWithDuplicate(status: InboxStatus, leaseUntil: Option<Instant>, now: Instant)
    ensures DecidePostCommit(status) == Ack <==> DecideDuplicate(status, leaseUntil, now, AckTerminal).action == Ack
  {
  }

  // ---------------------------------------------------------------- retries

  /** The chained comparison `attempt_count >= max_attempts > 0`: a limit of zero or less never quarantines. */
  predicate ShouldQuarantine(kind: RetryClass, attempts: int, maxAttempts: int) {
    kind == Poison || kind == Permanent || (attempts >= maxAttempts && maxAttempts > 0)
  }

  // ---------------------------------------------------------------- observation identity

  /** None is the ValueError raised when a part is empty. */
  function ObservationName(system: string, table: string, pk: string): Option<string> {
    if system == "" || table == "" || pk == "" then None
    else Some(system + ":" + table + ":" + pk)
  }

  function ObservationEventId(uuid5: (Uuid, string) -> Uuid, namespace: Uuid, system: string, table: string, pk: string)
    : Option<Uuid>
  {
    var name := ObservationName(system, table, pk);
    if name.None? then None else Some(uuid5(namespace, name.value))
  }

  predicate NoColon(s: string) {
    forall i :: 0 <= i < |s| ==> s[i] != ':'
  }

  lemma FirstColon(a: string, b: string)
    requires NoColon(a)
    ensures (a + ":" + b)[|a|] == ':' && forall i :: 0 <= i < |a| ==> (a + ":" + b)[i] != ':'
    ensures (a + ":" + b)[..|a|] == a && (a + ":" + b)[|a| + 1..] == b
  {
  }

  lemma SplitAtColon(a: string, b: string, c: string, d: string)
    requires NoColon(a) && NoColon(c) && a + ":" + b == c + ":" + d
    ensures a == c && b == d
  {
    FirstColon(a, b);
    FirstColon(c, d);
    assert |a| == |c|;
  }

  /** Identity names determine the source row as long as system and table hold no colon; the key may hold any. */
  lemma NameIsInjective(s1: string, t1: string, p1: string, s2: string, t2: string, p2: string)
    requires NoColon(s1) && NoColon(t1) && NoColon(s2) && NoColon(t2)
    requires ObservationName(s1, t1, p1).Some? && ObservationName(s1, t1, p1) == ObservationName(s2, t2, p2)
    ensures s1 == s2 && t1 == t2 && p1 == p2
  {
    assert s1 + ":" + t1 + ":" + p1 == s1 + ":" + (t1 + ":" + p1);
    assert s2 + ":" + t2 + ":" + p2 == s2 + ":" + (t2 + ":" + p2);
    SplitAtColon(s1, t1 + ":" + p1, s2, t2 + ":" + p2);
    SplitAtColon(t1, p1, t2, p2);
  }

  /** What an identity name starts with, whatever the key. */
  function Stem(system: string, table: string): string {
    system + ":" + table + ":"
  }

  lemma StemOfName(s: string, t: string, p: string)
    requires s != "" && t != "" && p != ""
    ensures ObservationName(s, t, p) == Some(Stem(s, t) + p)
  {
    assert s + ":" + t + ":" + p == Stem(s, t) + p;
  }

  /** Some row of the one source and some row of the other share an identity name. */
  ghost predicate NamesMeet(s1: string, t1: string, s2: string, t2: string) {
    exists p1, p2 :: p1 != "" && p2 != "" && ObservationName(s1, t1, p1) == ObservationName(s2, t2, p2)
  }

  /** Identity names of two sources can meet exactly when one stem starts the other. */
  lemma NamesMeetExactly(s1: string, t1: string, s2: string, t2: string)
    requires s1 != "" && t1 != "" && s2 != "" && t2 != ""
    ensures NamesMeet(s1, t1, s2, t2) <==> Stem(s1, t1) <= Stem(s2, t2) || Stem(s2, t2) <= Stem(s1, t1)
  {
    var a, b := Stem(s1, t1), Stem(s2, t2);
    forall p1, p2 | p1 != "" && p2 != "" && ObservationName(s1, t1, p1) == ObservationName(s2, t2, p2)
      ensures a <= b || b <= a
    {
      StemOfName(s1, t1, p1);
      StemOfName(s2, t2, p2);
      Strings.PrefixesOfOne(a, p1, b, p2);
    }
    if a <= b {
      MeetAt(s1, t1, b[|a|..] + "x", s2, t2, "x");
    } else if b <= a {
      MeetAt(s1, t1, "x", s2, t2, a[|b|..] + "x");
    }
  }

  lemma MeetAt(s1: string, t1: string, p1: string, s2: string, t2: string, p2: string)
    requires s1 != "" && t1 != "" && s2 != "" && t2 != "" && p1 != "" && p2 != ""
    requires Stem(s1, t1) + p1 == Stem(s2, t2) + p2
    ensures NamesMeet(s1, t1, s2, t2)
  {
    StemOfName(s1, t1, p1);
    StemOfName(s2, t2, p2);
  }

  /**
   Sources whose system and table hold no colon keep apart: their stems start one another only when they are the same.
   */
  lemma ColonFreeSourcesKeepApart(s1: string, t1: string, s2: string, t2: string)
    requires NoColon(s1) && NoColon(t1) && NoColon(s2) && NoColon(t2)
    requires Stem(s1, t1) <= Stem(s2, t2)
    ensures s1 == s2 && t1 == t2
  {
    var a, b := Stem(s1, t1), Stem(s2, t2);
    assert a == s1 + ":" + (t1 + ":") && b == s2 + ":" + (t2 + ":");
    var rest := b[|a|..];
    assert b == s1 + ":" + (t1 + ":" + rest);
    SplitAtColon(s1, t1 + ":" + rest, s2, t2 + ":");
    assert t2 + ":" + "" == t2 + ":";
    SplitAtColon(t1, rest, t2, "");
  }
}
