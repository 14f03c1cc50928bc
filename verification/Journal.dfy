/**
 The journal entries of the finance domain: what may be built, what reversing one does, and how balances are derived.
 */
module Journal {
  import opened Wrappers
  import opened Json
  import Ledger

  datatype Side = Debit | Credit

  datatype AccountKind =
    | DriverCashCustody | HubCash | ExchangeInTransit | Bank | MerchantPayable | HudhudRevenue | ReceiverRefundPayable

  datatype Account = Account(kind: AccountKind, party: Option<Uuid>)

  predicate IsDebitNormal(k: AccountKind) {
    k == DriverCashCustody || k == HubCash || k == ExchangeInTransit || k == Bank
  }

  datatype Line = Line(account: Account, side: Side, amount: int, currency: string)

  datatype JournalEntry = JournalEntry(entryId: Uuid, lines: seq<Line>, corrects: Option<Uuid>)

  datatype LedgerError = ZeroPosting | EmptyEntry | MixedCurrencyEntry | SingleSidedEntry | UnbalancedEntry

  function Sum(lines: seq<Line>, side: Side): int {
    if lines == [] then 0
    else Sum(lines[..|lines| - 1], side) + if lines[|lines| - 1].side == side then lines[|lines| - 1].amount else 0
  }

  predicate OneCurrency(lines: seq<Line>) {
    forall i, j :: 0 <= i < |lines| && 0 <= j < |lines| ==> lines[i].currency == lines[j].currency
  }

  /** The checks a journal entry makes of itself, in order; money is never negative. */
  function BuildError(lines: seq<Line>): Option<LedgerError>
    requires forall i :: 0 <= i < |lines| ==> lines[i].amount >= 0
  {
    if exists i :: 0 <= i < |lines| && lines[i].amount == 0 then Some(ZeroPosting)
    else if |lines| < 2 then Some(EmptyEntry)
    else if !OneCurrency(lines) then Some(MixedCurrencyEntry)
    else if Sum(lines, Debit) == 0 || Sum(lines, Credit) == 0 then Some(SingleSidedEntry)
    else if Sum(lines, Debit) != Sum(lines, Credit) then Some(UnbalancedEntry)
    else None
  }

  predicate Buildable(lines: seq<Line>) {
    (forall i :: 0 <= i < |lines| ==> lines[i].amount >= 0) && BuildError(lines).None?
  }

  // ---------------------------------------------------------------- the application and the database agree

  function SideText(s: Side): string {
    if s == Debit then "DEBIT" else "CREDIT"
  }

  /** Rows that carry the lines of an entry, whatever else their columns hold. */
  ghost predicate Carries(rows: seq<Ledger.Posting>, id: Uuid, lines: seq<Line>) {
    && |rows| == |lines|
    && forall i :: 0 <= i < |rows| ==>
      && rows[i].entryId == id && rows[i].side == SideText(lines[i].side) && rows[i].amount == lines[i].amount
      && rows[i].currency == lines[i].currency && Ledger.PostingChecks(rows[i])
  }

  lemma {:induction false} OwnRows(rows: seq<Ledger.Posting>, id: Uuid)
    requires forall i :: 0 <= i < |rows| ==> rows[i].entryId == id
    ensures Ledger.OfEntry(rows, id) == rows
  {
    if rows != [] {
      OwnRows(rows[..|rows| - 1], id);
    }
  }

  lemma {:induction false} CarriedTotal(rows: seq<Ledger.Posting>, lines: seq<Line>, side: Side, text: string)
    requires |rows| == |lines| && forall i :: 0 <= i < |rows| ==>
      rows[i].amount == lines[i].amount && (rows[i].side == text <==> lines[i].side == side)
    ensures Ledger.Total(rows, text) == Sum(lines, side)
  {
    if rows != [] {
      CarriedTotal(rows[..|rows| - 1], lines[..|rows| - 1], side, text);
    }
  }

  lemma CarriedTotals(rows: seq<Ledger.Posting>, id: Uuid, lines: seq<Line>)
    requires Carries(rows, id, lines)
    ensures Ledger.OfEntry(rows, id) == rows
    ensures Ledger.Total(rows, "DEBIT") == Sum(lines, Debit) && Ledger.Total(rows, "CREDIT") == Sum(lines, Credit)
  {
    OwnRows(rows, id);
    CarriedTotal(rows, lines, Debit, "DEBIT");
    CarriedTotal(rows, lines, Credit, "CREDIT");
  }

  /** The rule of a journal entry in one formula: positive amounts of one currency on both sides, equal in sum. */
  lemma BuildableMeans(lines: seq<Line>)
    ensures Buildable(lines) <==>
      && (forall i :: 0 <= i < |lines| ==> lines[i].amount > 0)
      && (forall i, j :: 0 <= i < j < |lines| ==> lines[i].currency == lines[j].currency)
      && (exists i :: 0 <= i < |lines| && lines[i].side == Debit)
      && (exists i :: 0 <= i < |lines| && lines[i].side == Credit)
      && Sum(lines, Debit) == Sum(lines, Credit)
  {
    if forall i :: 0 <= i < |lines| ==> lines[i].amount > 0 {
      BuildableBySums(lines);
      SumShows(lines, Debit);
      SumShows(lines, Credit);
    } else {
      NotPositive(lines);
    }
  }

  lemma NotPositive(lines: seq<Line>)
    requires exists i :: 0 <= i < |lines| && lines[i].amount <= 0
    ensures !Buildable(lines)
  {
    if forall i :: 0 <= i < |lines| ==> lines[i].amount >= 0 {
      var i :| 0 <= i < |lines| && lines[i].amount <= 0;
      assert lines[i].amount == 0;
    }
  }

  lemma BuildableBySums(lines: seq<Line>)
    requires forall i :: 0 <= i < |lines| ==> lines[i].amount > 0
    ensures Buildable(lines) <==>
      |lines| >= 2 && OneCurrency(lines) && Sum(lines, Debit) != 0 && Sum(lines, Debit) == Sum(lines, Credit)
  {
  }

  lemma {:induction false} SumShows(lines: seq<Line>, side: Side)
    requires forall i :: 0 <= i < |lines| ==> lines[i].amount > 0
    ensures Sum(lines, side) >= 0
    ensures Sum(lines, side) > 0 <==> exists i :: 0 <= i < |lines| && lines[i].side == side
  {
    if lines != [] {
      SumShows(lines[..|lines| - 1], side);
    }
  }

  /** Why an entry cannot be built: of the faults it has, the first in this order. */
  lemma RefusalsInOrder(lines: seq<Line>)
    requires forall i :: 0 <= i < |lines| ==> lines[i].amount >= 0
    ensures var zero := exists l :: l in lines && l.amount == 0;
      var mixed := exists l, k :: l in lines && k in lines && l.currency != k.currency;
      match BuildError(lines)
      case Some(ZeroPosting) => zero
      case Some(EmptyEntry) => !zero && |lines| < 2
      case Some(MixedCurrencyEntry) => !zero && mixed
      case Some(SingleSidedEntry) => !zero && !mixed && |lines| >= 2 && forall l, k :: l in lines && k in lines ==>
          l.side == k.side
      case Some(UnbalancedEntry) => !zero && !mixed && Sum(lines, Debit) != Sum(lines, Credit)
          && exists l, k :: l in lines && k in lines && l.side != k.side
      case None => !zero && !mixed
  {
    if forall i :: 0 <= i < |lines| ==> lines[i].amount > 0 {
      SumShows(lines, Debit);
      SumShows(lines, Credit);
    }
    assert forall i :: 0 <= i < |lines| ==> lines[i] in lines;
  }

  lemma SameCurrencies(rows: seq<Ledger.Posting>, lines: seq<Line>)
    requires |rows| == |lines| && forall i :: 0 <= i < |rows| ==> rows[i].currency == lines[i].currency
    ensures OneCurrency(lines) <==>
      forall i, j :: 0 <= i < |rows| && 0 <= j < |rows| ==> rows[i].currency == rows[j].currency
  {
    if OneCurrency(lines) {
      forall i, j | 0 <= i < |rows| && 0 <= j < |rows| ensures rows[i].currency == rows[j].currency {
        assert lines[i].currency == lines[j].currency;
      }
    } else {
      var i, j :| 0 <= i < |lines| && 0 <= j < |lines| && lines[i].currency != lines[j].currency;
      assert rows[i].currency != rows[j].currency;
    }
  }

  lemma BuildableIsSound(rows: seq<Ledger.Posting>, id: Uuid, lines: seq<Line>)
    requires Carries(rows, id, lines) && lines != []
    ensures Ledger.EntrySound(rows, id) <==> Buildable(lines)
  {
    CarriedTotals(rows, id, lines);
    Ledger.TotalsAreNotNegative(rows, "DEBIT");
    SameCurrencies(rows, lines);
    forall i | 0 <= i < |lines| ensures lines[i].amount > 0 {
      assert Ledger.PostingChecks(rows[i]);
    }
    BuildableBySums(lines);
  }

  /**
   Two guards, one rule: the database trigger lets the postings of an entry commit exactly if there are none, or the
   entry could be built and its sums fit the trigger's counters.
   */
  lemma BuildAgreesWithTrigger(rows: seq<Ledger.Posting>, id: Uuid, lines: seq<Line>)
    requires Carries(rows, id, lines)
    ensures Ledger.Verdict(rows, id).None? <==> lines == [] || (Buildable(lines) && Ledger.InRange(rows, id))
  {
    CarriedTotals(rows, id, lines);
    Ledger.VerdictMeansSound(rows, id);
    if lines != [] {
      BuildableIsSound(rows, id, lines);
    }
  }

  // ---------------------------------------------------------------- reversing

  function Flip(l: Line): Line {
    l.(side := if l.side == Debit then Credit else Debit)
  }

  function Flipped(lines: seq<Line>): seq<Line> {
    seq(|lines|, i requires 0 <= i < |lines| => Flip(lines[i]))
  }

  function Reverse(e: JournalEntry, id: Uuid): JournalEntry {
    JournalEntry(id, Flipped(e.lines), Some(e.entryId))
  }

  lemma {:induction false} FlippedSums(lines: seq<Line>)
    ensures Sum(Flipped(lines), Debit) == Sum(lines, Credit) && Sum(Flipped(lines), Credit) == Sum(lines, Debit)
  {
    if lines != [] {
      var n := |lines| - 1;
      FlippedSums(lines[..n]);
      assert Flipped(lines)[..n] == Flipped(lines[..n]);
    }
  }

  /** An entry can always be reversed, and reversing the reversal gives back the postings. */
  lemma ReverseIsBuildable(e: JournalEntry, id: Uuid, again: Uuid)
    requires Buildable(e.lines)
    ensures Buildable(Reverse(e, id).lines) && Reverse(Reverse(e, id), again).lines == e.lines
    ensures Reverse(e, id).corrects == Some(e.entryId)
  {
    FlippedSums(e.lines);
    var f := Flipped(e.lines);
    assert forall i :: 0 <= i < |f| ==> f[i].amount == e.lines[i].amount && f[i].currency == e.lines[i].currency;
    assert Flipped(f) == e.lines;
  }

  // ---------------------------------------------------------------- balances

  /** The lines of an account in a journal, in order. */
  function OnAccount(lines: seq<Line>, a: Account): seq<Line> {
    if lines == [] then []
    else OnAccount(lines[..|lines| - 1], a) + if lines[|lines| - 1].account == a then [lines[|lines| - 1]] else []
  }

  function AllLines(entries: seq<JournalEntry>): seq<Line> {
    if entries == [] then [] else AllLines(entries[..|entries| - 1]) + entries[|entries| - 1].lines
  }

  /** A posting's effect on its account, in the account's natural direction. */
  function Signed(l: Line): int {
    if (l.side == Debit) == IsDebitNormal(l.account.kind) then l.amount else -l.amount
  }

  function Effect(lines: seq<Line>, a: Account): int {
    if lines == [] then 0
    else Effect(lines[..|lines| - 1], a) + if lines[|lines| - 1].account == a then Signed(lines[|lines| - 1]) else 0
  }

  function Balance(entries: seq<JournalEntry>, a: Account): int {
    if entries == [] then 0 else Balance(entries[..|entries| - 1], a) + Effect(entries[|entries| - 1].lines, a)
  }

  datatype Derived = Derived(amount: int, postings: nat)

  /** The nested loops that derive a balance and count its postings; a negative total is an error. */
  method BalanceOf(a: Account, entries: seq<JournalEntry>) returns (r: Option<Derived>)
    ensures r == if Balance(entries, a) < 0 then None
                 else Some(Derived(Balance(entries, a), |OnAccount(AllLines(entries), a)|))
  {
    var total, count := 0, 0;
    for i := 0 to |entries|
      invariant total == Balance(entries[..i], a) && count == |OnAccount(AllLines(entries[..i]), a)|
    {
      var lines := entries[i].lines;
      ghost var before, counted := total, count;
      for j := 0 to |lines|
        invariant total == before + Effect(lines[..j], a) && count == counted + |OnAccount(lines[..j], a)|
      {
        assert lines[..j + 1][..j] == lines[..j];
        if lines[j].account == a {
          total := total + Signed(lines[j]);
          count := count + 1;
        }
      }
      assert lines[..|lines|] == lines;
      assert entries[..i + 1][..i] == entries[..i];
      OnAccountAdds(AllLines(entries[..i]), lines, a);
    }
    assert entries[..|entries|] == entries;
    r := if total < 0 then None else Some(Derived(total, count));
  }

  lemma {:induction false} FlippedEffect(lines: seq<Line>, a: Account)
    ensures Effect(Flipped(lines), a) == -Effect(lines, a)
  {
    if lines != [] {
      var n := |lines| - 1;
      FlippedEffect(lines[..n], a);
      assert Flipped(lines)[..n] == Flipped(lines[..n]);
    }
  }

  lemma {:induction false} BalanceAdds(xs: seq<JournalEntry>, ys: seq<JournalEntry>, a: Account)
    ensures Balance(xs + ys, a) == Balance(xs, a) + Balance(ys, a)
  {
    if ys == [] {
      assert xs + ys == xs;
    } else {
      var n := |ys| - 1;
      BalanceAdds(xs, ys[..n], a);
      assert (xs + ys)[..|xs + ys| - 1] == xs + ys[..n];
    }
  }

  lemma {:induction false} SumAdds(xs: seq<Line>, ys: seq<Line>, side: Side)
    ensures Sum(xs + ys, side) == Sum(xs, side) + Sum(ys, side)
  {
    if ys == [] {
      assert xs + ys == xs;
    } else {
      SumAdds(xs, ys[..|ys| - 1], side);
      assert (xs + ys)[..|xs + ys| - 1] == xs + ys[..|ys| - 1];
    }
  }

  lemma {:induction false} OnAccountAdds(xs: seq<Line>, ys: seq<Line>, a: Account)
    ensures OnAccount(xs + ys, a) == OnAccount(xs, a) + OnAccount(ys, a)
  {
    if ys == [] {
      assert xs + ys == xs;
    } else {
      OnAccountAdds(xs, ys[..|ys| - 1], a);
      assert (xs + ys)[..|xs + ys| - 1] == xs + ys[..|ys| - 1];
    }
  }

  predicate HoldsMoney(kind: AccountKind) {
    kind in {DriverCashCustody, HubCash, ExchangeInTransit, Bank}
  }

  lemma {:induction false} EffectIsNet(lines: seq<Line>, a: Account)
    ensures var net := Sum(OnAccount(lines, a), Debit) - Sum(OnAccount(lines, a), Credit);
      Effect(lines, a) == if HoldsMoney(a.kind) then net else -net
  {
    if lines != [] {
      var init, l := lines[..|lines| - 1], lines[|lines| - 1];
      EffectIsNet(init, a);
      if l.account == a {
        assert (OnAccount(init, a) + [l])[..|OnAccount(init, a)|] == OnAccount(init, a);
      } else {
        assert OnAccount(init, a) + [] == OnAccount(init, a);
      }
    }
  }

  /**
   What an account holds is what was debited to it less what was credited, if it is cash, money in transit or the bank,
   and the other way round if it is a payable or revenue.
   */
  lemma {:induction false} BalanceIsNet(entries: seq<JournalEntry>, a: Account)
    ensures var own := OnAccount(AllLines(entries), a);
      Balance(entries, a) == if HoldsMoney(a.kind) then Sum(own, Debit) - Sum(own, Credit)
                             else Sum(own, Credit) - Sum(own, Debit)
  {
    if entries != [] {
      var init, e := entries[..|entries| - 1], entries[|entries| - 1];
      BalanceIsNet(init, a);
      EffectIsNet(e.lines, a);
      OnAccountAdds(AllLines(init), e.lines, a);
      SumAdds(OnAccount(AllLines(init), a), OnAccount(e.lines, a), Debit);
      SumAdds(OnAccount(AllLines(init), a), OnAccount(e.lines, a), Credit);
    }
  }

  // ---------------------------------------------------------------- the accounting equation

  /** The balances of these accounts together. */
  function Together(entries: seq<JournalEntry>, accounts: seq<Account>): int {
    if accounts == [] then 0 else Balance(entries, accounts[0]) + Together(entries, accounts[1..])
  }

  /** Money held less money owed or earned, over these accounts, as one entry moves it. */
  function Worth(lines: seq<Line>, accounts: seq<Account>): int {
    if accounts == [] then 0
    else
      var moved := Effect(lines, accounts[0]);
      Worth(lines, accounts[1..]) + if HoldsMoney(accounts[0].kind) then moved else -moved
  }

  predicate Distinct(accounts: seq<Account>) {
    forall i, j :: 0 <= i < j < |accounts| ==> accounts[i] != accounts[j]
  }

  lemma {:induction false} WorthOfNone(lines: seq<Line>, accounts: seq<Account>, l: Line)
    requires l.account !in accounts
    ensures Worth(lines + [l], accounts) == Worth(lines, accounts)
  {
    if accounts != [] {
      assert (lines + [l])[..|lines|] == lines;
      WorthOfNone(lines, accounts[1..], l);
    }
  }

  lemma {:induction false} WorthOneMore(lines: seq<Line>, accounts: seq<Account>, l: Line)
    requires Distinct(accounts) && l.account in accounts
    ensures Worth(lines + [l], accounts) == Worth(lines, accounts) + if l.side == Debit then l.amount else -l.amount
  {
    assert (lines + [l])[..|lines|] == lines;
    if accounts[0] == l.account {
      WorthOfNone(lines, accounts[1..], l);
    } else {
      WorthOneMore(lines, accounts[1..], l);
    }
  }

  lemma {:induction false} WorthIsNet(lines: seq<Line>, accounts: seq<Account>)
    requires Distinct(accounts) && forall i :: 0 <= i < |lines| ==> lines[i].account in accounts
    ensures Worth(lines, accounts) == Sum(lines, Debit) - Sum(lines, Credit)
  {
    if lines == [] {
      WorthOfNothing(accounts);
    } else {
      WorthIsNet(lines[..|lines| - 1], accounts);
      WorthOneMore(lines[..|lines| - 1], accounts, lines[|lines| - 1]);
      assert lines[..|lines| - 1] + [lines[|lines| - 1]] == lines;
    }
  }

  lemma {:induction false} WorthOfNothing(accounts: seq<Account>)
    ensures Worth([], accounts) == 0 && Together([], accounts) == 0
  {
    if accounts != [] {
      WorthOfNothing(accounts[1..]);
    }
  }

  lemma {:induction false} TogetherMoves(entries: seq<JournalEntry>, e: JournalEntry, holding: seq<Account>,
                                         owing: seq<Account>)
    requires forall i :: 0 <= i < |holding| ==> HoldsMoney(holding[i].kind)
    requires forall i :: 0 <= i < |owing| ==> !HoldsMoney(owing[i].kind)
    ensures Together(entries + [e], holding) == Together(entries, holding) + Worth(e.lines, holding)
    ensures Together(entries + [e], owing) == Together(entries, owing) - Worth(e.lines, owing)
    decreases |holding| + |owing|
  {
    assert (entries + [e])[..|entries|] == entries;
    if holding != [] {
      TogetherMoves(entries, e, holding[1..], []);
    }
    if owing != [] {
      TogetherMoves(entries, e, [], owing[1..]);
    }
  }

  lemma {:induction false} WorthAdds(lines: seq<Line>, xs: seq<Account>, ys: seq<Account>)
    ensures Worth(lines, xs + ys) == Worth(lines, xs) + Worth(lines, ys)
  {
    if xs == [] {
      assert xs + ys == ys;
    } else {
      WorthAdds(lines, xs[1..], ys);
      assert (xs + ys)[1..] == xs[1..] + ys;
    }
  }

  /**
   The accounting equation: after any journal of entries that can be built, all the money HUDHUD holds, over any choice
   of accounts that covers the journal, equals all it owes and has earned.
   */
  lemma {:induction false} HoldingsMatchClaims(entries: seq<JournalEntry>, holding: seq<Account>, owing: seq<Account>)
    requires forall e :: e in entries ==> Buildable(e.lines)
    requires forall e, l :: e in entries && l in e.lines ==> l.account in holding + owing
    requires Distinct(holding + owing)
    requires forall i :: 0 <= i < |holding| ==> HoldsMoney(holding[i].kind)
    requires forall i :: 0 <= i < |owing| ==> !HoldsMoney(owing[i].kind)
    ensures Together(entries, holding) == Together(entries, owing)
  {
    if entries == [] {
      WorthOfNothing(holding);
      WorthOfNothing(owing);
    } else {
      var init, e := entries[..|entries| - 1], entries[|entries| - 1];
      assert e in entries && entries == init + [e];
      HoldingsMatchClaims(init, holding, owing);
      TogetherMoves(init, e, holding, owing);
      BuildableMeans(e.lines);
      WorthIsNet(e.lines, holding + owing);
      WorthAdds(e.lines, holding, owing);
    }
  }

  /** A mistake is undone by posting its reverse: wherever the two stand in the journal, no account's balance moves. */
  lemma ReverseUndoes(before: seq<JournalEntry>, e: JournalEntry, between: seq<JournalEntry>, id: Uuid,
                      later: seq<JournalEntry>, a: Account)
    ensures Balance(before + [e] + between + [Reverse(e, id)] + later, a) == Balance(before + between + later, a)
  {
    var r := Reverse(e, id);
    BalanceAdds(before + [e] + between + [r], later, a);
    BalanceAdds(before + [e] + between, [r], a);
    BalanceAdds(before + [e], between, a);
    BalanceAdds(before, [e], a);
    BalanceAdds(before + between, later, a);
    BalanceAdds(before, between, a);
    assert [e][..0] == [] && [r][..0] == [];
    FlippedEffect(e.lines, a);
  }
}
