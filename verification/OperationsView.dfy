/** The operations view over claims and open incidents, and the parcels open incidents hold back. */
module OperationsView {
  import opened Wrappers
  import opened Json
  import opened Claims

  // ---------------------------------------------------------------- a stable sort

  /** Put x in front of the first element that is not before it. */
  function Place<T>(x: T, s: seq<T>, key: T -> int): seq<T> {
    if s == [] || key(x) <= key(s[0]) then [x] + s else [s[0]] + Place(x, s[1..], key)
  }

  /** sorted(): ascending by key, equal keys in their original order. */
  function Sorted<T>(s: seq<T>, key: T -> int): seq<T> {
    if s == [] then [] else Place(s[0], Sorted(s[1..], key), key)
  }

  predicate Ordered<T>(s: seq<T>, key: T -> int) {
    forall i, j :: 0 <= i < j < |s| ==> key(s[i]) <= key(s[j])
  }

  function WithKey<T>(s: seq<T>, key: T -> int, k: int): seq<T> {
    if s == [] then [] else OneWithKey(s[0], key, k) + WithKey(s[1..], key, k)
  }

  function Map<T, U>(f: T -> U, s: seq<T>): (r: seq<U>)
    ensures |r| == |s|
  {
    if s == [] then [] else [f(s[0])] + Map(f, s[1..])
  }

  lemma {:induction false} PlaceIsPermutation<T>(x: T, s: seq<T>, key: T -> int)
    ensures multiset(Place(x, s, key)) == multiset(s) + multiset{x}
  {
    if s != [] && key(x) > key(s[0]) {
      PlaceIsPermutation(x, s[1..], key);
      assert s == [s[0]] + s[1..];
    }
  }

  lemma PrependKeepsOrder<T>(x: T, s: seq<T>, key: T -> int)
    requires Ordered(s, key) && forall y :: y in s ==> key(x) <= key(y)
    ensures Ordered([x] + s, key)
  {
  }

  lemma {:induction false} PlaceIsOrdered<T>(x: T, s: seq<T>, key: T -> int)
    requires Ordered(s, key)
    ensures Ordered(Place(x, s, key), key)
  {
    if s == [] || key(x) <= key(s[0]) {
      PrependKeepsOrder(x, s, key);
    } else {
      var p := Place(x, s[1..], key);
      PlaceIsOrdered(x, s[1..], key);
      PlaceIsPermutation(x, s[1..], key);
      forall y | y in p ensures key(s[0]) <= key(y) {
        assert y in multiset(p);
        assert y == x || y in s[1..];
      }
      PrependKeepsOrder(s[0], p, key);
    }
  }

  lemma {:induction false} SortedIsOrdered<T>(s: seq<T>, key: T -> int)
    ensures Ordered(Sorted(s, key), key)
    ensures multiset(Sorted(s, key)) == multiset(s)
  {
    if s != [] {
      SortedIsOrdered(s[1..], key);
      PlaceIsOrdered(s[0], Sorted(s[1..], key), key);
      PlaceIsPermutation(s[0], Sorted(s[1..], key), key);
      assert s == [s[0]] + s[1..];
    }
  }

  function OneWithKey<T>(x: T, key: T -> int, k: int): seq<T> {
    if key(x) == k then [x] else []
  }

  lemma WithKeyOfCons<T>(x: T, s: seq<T>, key: T -> int, k: int)
    ensures WithKey([x] + s, key, k) == OneWithKey(x, key, k) + WithKey(s, key, k)
  {
    assert ([x] + s)[1..] == s;
  }

  lemma {:induction false} PlaceIsStable<T>(x: T, s: seq<T>, key: T -> int, k: int)
    requires Ordered(s, key)
    ensures WithKey(Place(x, s, key), key, k) == OneWithKey(x, key, k) + WithKey(s, key, k)
  {
    if s == [] || key(x) <= key(s[0]) {
      WithKeyOfCons(x, s, key, k);
    } else {
      var y, t := s[0], s[1..];
      PlaceIsStable(x, t, key, k);
      WithKeyOfCons(y, Place(x, t, key), key, k);
      WithKeyOfCons(y, t, key, k);
      assert s == [y] + t;
      assert OneWithKey(y, key, k) == [] || OneWithKey(x, key, k) == [];
      var a, b, c := OneWithKey(y, key, k), OneWithKey(x, key, k), WithKey(t, key, k);
      assert a + (b + c) == b + (a + c);
    }
  }

  /** Elements with equal keys keep their order. */
  lemma {:induction false} SortedIsStable<T>(s: seq<T>, key: T -> int, k: int)
    ensures WithKey(Sorted(s, key), key, k) == WithKey(s, key, k)
  {
    if s != [] {
      SortedIsStable(s[1..], key, k);
      SortedIsOrdered(s[1..], key);
      PlaceIsStable(s[0], Sorted(s[1..], key), key, k);
    }
  }

  lemma {:induction false} PlaceOfMap<T, U>(f: T -> U, x: T, s: seq<T>, key: U -> int, own: T -> int)
    requires forall y :: own(y) == key(f(y))
    ensures Place(f(x), Map(f, s), key) == Map(f, Place(x, s, own))
  {
    if s != [] && own(x) > own(s[0]) {
      PlaceOfMap(f, x, s[1..], key, own);
      assert Map(f, s)[1..] == Map(f, s[1..]);
      var p := Place(x, s[1..], own);
      assert ([s[0]] + p)[1..] == p;
    } else {
      assert ([x] + s)[1..] == s;
    }
  }

  /** Sorting looks at nothing but the key. */
  lemma {:induction false} SortedOfMap<T, U>(f: T -> U, s: seq<T>, key: U -> int, own: T -> int)
    requires forall y :: own(y) == key(f(y))
    ensures Sorted(Map(f, s), key) == Map(f, Sorted(s, own))
  {
    if s != [] {
      SortedOfMap(f, s[1..], key, own);
      assert Map(f, s)[1..] == Map(f, s[1..]);
      PlaceOfMap(f, s[0], Sorted(s[1..], own), key, own);
    }
  }

  lemma {:induction false} MapAt<T, U>(f: T -> U, s: seq<T>, i: nat)
    requires i < |s|
    ensures Map(f, s)[i] == f(s[i])
  {
    if i > 0 {
      MapAt(f, s[1..], i - 1);
    }
  }

  lemma {:induction false} MapOfPrefix<T, U>(f: T -> U, s: seq<T>, n: nat)
    requires n <= |s|
    ensures Map(f, s)[..n] == Map(f, s[..n])
  {
    if n > 0 {
      MapOfPrefix(f, s[1..], n - 1);
      assert s[..n][1..] == s[1..][..n - 1];
      assert Map(f, s)[1..] == Map(f, s[1..]);
    }
  }

  lemma MapOfMap<T, U, V>(f: T -> U, g: U -> V, h: T -> V, s: seq<T>)
    requires forall x :: h(x) == g(f(x))
    ensures Map(g, Map(f, s)) == Map(h, s)
  {
    forall i | 0 <= i < |s| ensures Map(g, Map(f, s))[i] == Map(h, s)[i] {
      MapAt(f, s, i);
      MapAt(g, Map(f, s), i);
      MapAt(h, s, i);
    }
  }

  // ---------------------------------------------------------------- the view

  datatype RowKind = OfClaim(claimKind: ClaimKind) | OfIncident(incidentKind: IncidentKind)

  datatype RowStatus = ClaimIs(claimStatus: ClaimStatus) | IncidentIs(incidentStatus: IncidentStatus)

  datatype Row = Row(
    reference: string, trackingCode: Option<string>, kind: RowKind, status: RowStatus, openedBy: OpenedBy,
    submittedAt: Option<nat>, awaitingOperations: bool, compensation: Option<nat>, parcelHeld: Option<bool>)

  const VIEW_LIMIT: nat := 200

  /** A missing time sorts as the earliest. */
  function When(t: Option<nat>): int {
    if t.Some? then t.value else -1
  }

  function NewestFirst(): Claim -> int {
    (c: Claim) => -When(c.submittedAt)
  }

  /** The newest claims, at most 200 of them. */
  function Listed(claims: seq<Claim>): seq<Claim> {
    var newest := Sorted(claims, NewestFirst());
    if |newest| <= VIEW_LIMIT then newest else newest[..VIEW_LIMIT]
  }

  predicate StaysInCustody(c: Incident) {
    IsAboutAParcel(c.kind) && !c.status.Resolved?
  }

  function OpenOnes(incidents: seq<Incident>): seq<Incident> {
    if incidents == [] then []
    else (if incidents[0].status.Resolved? then [] else [incidents[0]]) + OpenOnes(incidents[1..])
  }

  function ClaimRow(showAmounts: bool): Claim -> Row {
    (c: Claim) => Row(c.reference, Some(c.trackingCode), OfClaim(c.kind), ClaimIs(c.status), c.openedBy, c.submittedAt,
                      IsOpen(c.status),
                      if showAmounts then c.compensation else None, None)
  }

  function IncidentRow(): Incident -> Row {
    (c: Incident) => Row(c.reference, c.trackingCode, OfIncident(c.kind), IncidentIs(c.status), ByDriver,
                         Some(c.reportedAt),
                         !c.status.Resolved?, None, Some(StaysInCustody(c)))
  }

  function Oldest(): Row -> int {
    (r: Row) => When(r.submittedAt)
  }

  function Rows(s: State, showAmounts: bool): seq<Row> {
    Map(ClaimRow(showAmounts), Listed(s.claims)) + Map(IncidentRow(), OpenOnes(s.incidents))
  }

  function ReturnsAndClaims(s: State, actor: Actor): seq<Row> {
    Sorted(Rows(s, actor.MaySeeACompensationValue()), Oldest())
  }

  lemma SplitOfOrdered<T>(s: seq<T>, n: nat, key: T -> int)
    requires n <= |s| && Ordered(s, key)
    ensures forall c, d :: c in s[..n] && d in s[n..] ==> key(c) <= key(d)
    ensures multiset(s[..n]) + multiset(s[n..]) == multiset(s)
  {
    assert s == s[..n] + s[n..];
    forall c, d | c in s[..n] && d in s[n..] ensures key(c) <= key(d) {
      var i :| 0 <= i < n && s[..n][i] == c;
      var j :| 0 <= j < |s| - n && s[n..][j] == d;
      assert key(s[i]) <= key(s[n + j]);
    }
  }

  /**
   The listed claims are the newest of all: every claim is there up to 200, and none left out is newer than one
   listed.
   */
  lemma ListedAreTheNewest(claims: seq<Claim>) returns (rest: seq<Claim>)
    ensures multiset(Listed(claims)) + multiset(rest) == multiset(claims)
    ensures |claims| <= VIEW_LIMIT ==> rest == []
    ensures |claims| > VIEW_LIMIT ==> |Listed(claims)| == VIEW_LIMIT
    ensures forall c, d :: c in Listed(claims) && d in rest ==> NewestFirst()(c) <= NewestFirst()(d)
  {
    var newest := Sorted(claims, NewestFirst());
    SortedIsOrdered(claims, NewestFirst());
    assert |newest| == |multiset(newest)| == |claims|;
    var n := if |newest| <= VIEW_LIMIT then |newest| else VIEW_LIMIT;
    SplitOfOrdered(newest, n, NewestFirst());
    rest := newest[n..];
    assert Listed(claims) == newest[..n];
  }

  /**
   The view is exactly the rows of the listed claims and the open incidents, oldest first, ties in their original
   order.
   */
  lemma ViewIsTheSortedRows(s: State, actor: Actor, k: int)
    ensures var view := ReturnsAndClaims(s, actor); var rows := Rows(s, actor.MaySeeACompensationValue());
      && multiset(view) == multiset(rows)
      && Ordered(view, Oldest())
      && WithKey(view, Oldest(), k) == WithKey(rows, Oldest(), k)
  {
    SortedIsOrdered(Rows(s, actor.MaySeeACompensationValue()), Oldest());
    SortedIsStable(Rows(s, actor.MaySeeACompensationValue()), Oldest(), k);
  }

  // ---------------------------------------------------------------- what the view shows

  /** A claim as the view shows it: awaiting operations while it is open, with its amount for who may see it. */
  predicate ShowsClaim(r: Row, c: Claim, showAmounts: bool) {
    && r.reference == c.reference && r.trackingCode == Some(c.trackingCode) && r.kind == OfClaim(c.kind)
    && r.status == ClaimIs(c.status) && r.openedBy == c.openedBy && r.submittedAt == c.submittedAt
    && r.awaitingOperations == (c.status in {Submitted, UnderReview})
    && r.compensation == (if showAmounts then c.compensation else None) && r.parcelHeld.None?
  }

  /** An open incident as the view shows it: the driver's, never with an amount, its parcel held if it is about one. */
  predicate ShowsIncident(r: Row, c: Incident) {
    && r.reference == c.reference && r.trackingCode == c.trackingCode && r.kind == OfIncident(c.kind)
    && r.status == IncidentIs(c.status) && r.openedBy == ByDriver && r.submittedAt == Some(c.reportedAt)
    && r.awaitingOperations && r.compensation.None? && r.parcelHeld == Some(c.kind != VehicleOrSafetyIssue)
  }

  /** No later than another time; a missing one is before every other. */
  predicate NoLater(a: Option<nat>, b: Option<nat>) {
    a.None? || (b.Some? && a.value <= b.value)
  }

  predicate MaySeeAmounts(actor: Actor) {
    && PickupDriver !in actor.roles && LastMileDriver !in actor.roles
    && (Operations in actor.roles || Accountant in actor.roles || Support in actor.roles)
  }

  /** The rows of these claims, then of these incidents. */
  predicate ShowsAll(rows: seq<Row>, listed: seq<Claim>, open: seq<Incident>, showAmounts: bool) {
    && |rows| == |listed| + |open|
    && (forall i :: 0 <= i < |listed| ==> ShowsClaim(rows[i], listed[i], showAmounts))
    && (forall i :: 0 <= i < |open| ==> ShowsIncident(rows[|listed| + i], open[i]))
  }

  lemma {:induction false} OpenOnesAre(incidents: seq<Incident>, c: Incident)
    ensures multiset(OpenOnes(incidents))[c] == if c.status == Resolved then 0 else multiset(incidents)[c]
    ensures c in OpenOnes(incidents) ==> c.status != Resolved
  {
    if incidents != [] {
      OpenOnesAre(incidents[1..], c);
      assert incidents == [incidents[0]] + incidents[1..];
    }
  }

  lemma ClaimShows(c: Claim, showAmounts: bool)
    ensures ShowsClaim(ClaimRow(showAmounts)(c), c, showAmounts)
  {
  }

  lemma IncidentShows(c: Incident)
    requires c.status != Resolved
    ensures ShowsIncident(IncidentRow()(c), c)
  {
  }

  lemma ClaimsShow(listed: seq<Claim>, showAmounts: bool)
    ensures var rows := Map(ClaimRow(showAmounts), listed);
      forall i :: 0 <= i < |listed| ==> ShowsClaim(rows[i], listed[i], showAmounts)
  {
    forall i | 0 <= i < |listed| ensures ShowsClaim(Map(ClaimRow(showAmounts), listed)[i], listed[i], showAmounts) {
      MapAt(ClaimRow(showAmounts), listed, i);
      ClaimShows(listed[i], showAmounts);
    }
  }

  lemma IncidentsShow(open: seq<Incident>)
    requires forall c :: c in open ==> c.status != Resolved
    ensures var rows := Map(IncidentRow(), open); forall i :: 0 <= i < |open| ==> ShowsIncident(rows[i], open[i])
  {
    forall i | 0 <= i < |open| ensures ShowsIncident(Map(IncidentRow(), open)[i], open[i]) {
      MapAt(IncidentRow(), open, i);
      IncidentShows(open[i]);
    }
  }

  lemma RowsShowAll(s: State, showAmounts: bool)
    ensures ShowsAll(Rows(s, showAmounts), Listed(s.claims), OpenOnes(s.incidents), showAmounts)
  {
    forall c | c in OpenOnes(s.incidents) ensures c.status != Resolved {
      OpenOnesAre(s.incidents, c);
    }
    ClaimsShow(Listed(s.claims), showAmounts);
    IncidentsShow(OpenOnes(s.incidents));
  }

  /**
   The view is what it promises: the newest claims, up to 200 and decided ones too, and every open incident; each shown
   as it is, amounts only to who may see them; the oldest first.
   */
  lemma ViewShowsExactly(s: State, actor: Actor)
    returns (listed: seq<Claim>, rest: seq<Claim>, open: seq<Incident>, rows: seq<Row>)
    ensures multiset(listed) + multiset(rest) == multiset(s.claims)
    ensures if |s.claims| <= 200 then rest == [] else |listed| == 200
    ensures forall c, d :: c in listed && d in rest ==> NoLater(d.submittedAt, c.submittedAt)
    ensures forall c :: multiset(open)[c] == if c.status == Resolved then 0 else multiset(s.incidents)[c]
    ensures ShowsAll(rows, listed, open, MaySeeAmounts(actor))
    ensures var view := ReturnsAndClaims(s, actor);
      && multiset(view) == multiset(rows)
      && forall i, j :: 0 <= i < j < |view| ==> NoLater(view[i].submittedAt, view[j].submittedAt)
  {
    listed, open := Listed(s.claims), OpenOnes(s.incidents);
    rest := ListedAreTheNewest(s.claims);
    rows := Rows(s, MaySeeAmounts(actor));
    forall c, d | c in listed && d in rest ensures NoLater(d.submittedAt, c.submittedAt) {
      assert NewestFirst()(c) <= NewestFirst()(d);
    }
    forall c ensures multiset(open)[c] == if c.status == Resolved then 0 else multiset(s.incidents)[c] {
      OpenOnesAre(s.incidents, c);
    }
    RowsShowAll(s, MaySeeAmounts(actor));
    SortedIsOrdered(rows, Oldest());
    var view := ReturnsAndClaims(s, actor);
    forall i, j | 0 <= i < j < |view| ensures NoLater(view[i].submittedAt, view[j].submittedAt) {
      assert Oldest()(view[i]) <= Oldest()(view[j]);
    }
  }

  // ---------------------------------------------------------------- amounts

  function HideAmount(): Claim -> Claim {
    (c: Claim) => c.(compensation := None)
  }

  /** The same rows without their compensation amounts. */
  function WithoutAmounts(s: State): State {
    s.(claims := Map(HideAmount(), s.claims))
  }

  lemma ListedWithoutAmounts(claims: seq<Claim>)
    ensures Listed(Map(HideAmount(), claims)) == Map(HideAmount(), Listed(claims))
  {
    SortedOfMap(HideAmount(), claims, NewestFirst(), NewestFirst());
    var newest := Sorted(claims, NewestFirst());
    if |newest| > VIEW_LIMIT {
      MapOfPrefix(HideAmount(), newest, VIEW_LIMIT);
    }
  }

  lemma ViewWithoutAmounts(s: State, actor: Actor)
    requires !actor.MaySeeACompensationValue()
    ensures ReturnsAndClaims(WithoutAmounts(s), actor) == ReturnsAndClaims(s, actor)
  {
    ListedWithoutAmounts(s.claims);
    MapOfMap(HideAmount(), ClaimRow(false), ClaimRow(false), Listed(s.claims));
  }

  /**
   Whoever may not see a compensation value learns nothing of any: stores that differ only in amounts look the same.
   */
  lemma AmountsDoNotLeak(s: State, t: State, actor: Actor)
    requires !actor.MaySeeACompensationValue() && WithoutAmounts(s) == WithoutAmounts(t)
    ensures ReturnsAndClaims(s, actor) == ReturnsAndClaims(t, actor)
  {
    ViewWithoutAmounts(s, actor);
    ViewWithoutAmounts(t, actor);
  }

  /**
   A driver never may, whatever other role they hold; and for everyone else an approved amount is on the claim's row.
   */
  lemma AmountsAreForNonDrivers(s: State, actor: Actor, c: Claim)
    requires c in Listed(s.claims)
    ensures actor.IsDriver() ==> forall r :: r in ReturnsAndClaims(s, actor) ==> r.compensation.None?
    ensures actor.MaySeeACompensationValue() ==>
      exists r :: r in ReturnsAndClaims(s, actor) && r.reference == c.reference && r.compensation == c.compensation
  {
    var show := actor.MaySeeACompensationValue();
    var rows, view := Rows(s, show), ReturnsAndClaims(s, actor);
    SortedIsOrdered(rows, Oldest());
    forall r | r in view ensures !show ==> r.compensation.None? {
      assert r in multiset(view);
      assert r in rows;
      RowsShow(s, show, r);
    }
    var i :| 0 <= i < |Listed(s.claims)| && Listed(s.claims)[i] == c;
    MapAt(ClaimRow(show), Listed(s.claims), i);
    assert rows[i] == ClaimRow(show)(c);
    assert rows[i] in multiset(rows);
    assert rows[i] in view;
  }

  lemma RowsShow(s: State, show: bool, r: Row)
    requires r in Rows(s, show)
    ensures !show ==> r.compensation.None?
  {
    var listed, open := Listed(s.claims), OpenOnes(s.incidents);
    var i :| 0 <= i < |Rows(s, show)| && Rows(s, show)[i] == r;
    if i < |listed| {
      MapAt(ClaimRow(show), listed, i);
    } else {
      MapAt(IncidentRow(), open, i - |listed|);
    }
  }

  // ---------------------------------------------------------------- parcels held

  /** The parcels that must not move: those of open incidents about a parcel. */
  function ParcelsHeld(incidents: seq<Incident>): seq<string> {
    if incidents == [] then []
    else
      var c := incidents[0];
      (if StaysInCustody(c) && c.trackingCode.Some? && c.trackingCode.value != "" then [c.trackingCode.value] else [])
      + ParcelsHeld(incidents[1..])
  }

  /** An open incident that names this parcel. */
  predicate Holds(c: Incident, parcel: string) {
    !c.status.Resolved? && c.trackingCode == Some(parcel)
  }

  /** In every sound state a parcel is held exactly while an open incident names it. */
  lemma {:induction false} HeldWhileReported(incidents: seq<Incident>, parcel: string)
    requires parcel != "" && forall c :: c in incidents ==> IncidentChecks(c)
    ensures parcel in ParcelsHeld(incidents) <==> exists c :: c in incidents && Holds(c, parcel)
  {
    if incidents != [] {
      var head, tail := incidents[0], incidents[1..];
      HeldWhileReported(tail, parcel);
      assert incidents == [head] + tail;
      assert head in incidents && IncidentChecks(head);
      var held :=
        if StaysInCustody(head) && head.trackingCode.Some? && head.trackingCode.value != "" then
          [head.trackingCode.value] else [];
      assert ParcelsHeld(incidents) == held + ParcelsHeld(tail);
      assert parcel in held <==> Holds(head, parcel);
    }
  }

  predicate HeldByAnother(incidents: seq<Incident>, i: nat, parcel: string) {
    exists j :: 0 <= j < |incidents| && j != i && Holds(incidents[j], parcel)
  }

  lemma HoldersAfterResolving(incidents: seq<Incident>, i: nat, c: Incident, parcel: string)
    requires i < |incidents| && c.status.Resolved?
    ensures (exists d :: d in incidents[i := c] && Holds(d, parcel)) <==> HeldByAnother(incidents, i, parcel)
  {
    var after := incidents[i := c];
    if d :| d in after && Holds(d, parcel) {
      var j :| 0 <= j < |after| && after[j] == d;
      assert j != i && Holds(incidents[j], parcel);
    }
    if j :| 0 <= j < |incidents| && j != i && Holds(incidents[j], parcel) {
      assert after[j] in after;
    }
  }

  /** Resolving an incident lets its parcel go exactly when no other open incident names it. */
  lemma ResolvingReleases(s: State, i: nat, resolver: Actor, note: string, linked: Option<Uuid>, now: nat,
                          parcel: string)
    requires Sound(s) && i < |s.incidents| && s.incidents[i].trackingCode == Some(parcel) && parcel != ""
    ensures var r := OnIncident(s, s.incidents[i].reference, Resolve(resolver, note, linked), now);
      r.1.Ok? ==> parcel in ParcelsHeld(s.incidents)
                  && (parcel in ParcelsHeld(r.0.incidents) <==> HeldByAnother(s.incidents, i, parcel))
  {
    var cmd, reference := Resolve(resolver, note, linked), s.incidents[i].reference;
    var r := OnIncident(s, reference, cmd, now);
    OnIncidentKeeps(s, reference, cmd, now);
    if r.1.Ok? {
      var k :| IncidentMoved(s, r.0, k, reference, cmd, now);
      assert k == i;
      assert s.incidents[i] in s.incidents && Holds(s.incidents[i], parcel);
      HeldWhileReported(s.incidents, parcel);
      HeldWhileReported(r.0.incidents, parcel);
      HoldersAfterResolving(s.incidents, i, r.0.incidents[i], parcel);
    }
  }
}
