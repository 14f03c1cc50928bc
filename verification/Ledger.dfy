/**
 The finance ledger tables with the guards the migration puts on them: column checks, append-only triggers, and the
 balance trigger, deferred to COMMIT and run only for entries that received a posting in the transaction.
 */
module Ledger {
  import opened Wrappers
  import opened Json

  const MAX_BIGINT := 0x7fff_ffff_ffff_ffff
  const MAX_INTEGER := 0x7fff_ffff

  datatype Entry = Entry(
    entryId: Uuid, reason: string, currency: string, total: int, idempotencyKey: Option<string>, corrects: Option<Uuid>)

  datatype Posting = Posting(
    postingId: Uuid, entryId: Uuid, accountKind: string, partyId: Option<Uuid>, side: string, amount: int,
    currency: string)

  datatype Tables = Tables(entries: seq<Entry>, postings: seq<Posting>)

  const EMPTY := Tables([], [])

  /**
   An INSERT of postings may have several rows. An UPDATE or DELETE is known by the rows its WHERE clause hits, an
   UPDATE also by what it would make of them. TRUNCATE fires no row trigger; the postings reference the entries, so the
   entries are truncated with them or not at all. SET CONSTRAINTS fires the balance trigger's queue at once, or defers
   it again.
   */
  datatype Statement =
    | InsertEntry(entry: Entry)
    | InsertPostings(rows: seq<Posting>)
    | UpdateEntries(hits: Entry -> bool, change: Entry -> Entry)
    | DeleteEntries(hits: Entry -> bool)
    | UpdatePostings(hitsRow: Posting -> bool, changeRow: Posting -> Posting)
    | DeletePostings(hitsRow: Posting -> bool)
    | TruncatePostings
    | TruncateEntries(withPostings: bool)
    | SetConstraints(immediate: bool)

  /** A transaction at work: its tables, the balance checks it has queued, and whether they are deferred. */
  datatype Tx = Tx(tables: Tables, queue: seq<Uuid>, immediate: bool)

  // ---------------------------------------------------------------- row checks

  predicate EntryChecks(e: Entry) {
    && (e.corrects.Some? ==> e.reason == "CORRECTION")
    && 0 < e.total <= MAX_BIGINT
  }

  predicate IsPartyAccount(kind: string) {
    kind == "DRIVER_CASH_CUSTODY" || kind == "MERCHANT_PAYABLE" || kind == "RECEIVER_REFUND_PAYABLE"
  }

  predicate PostingChecks(p: Posting) {
    && (p.side == "DEBIT" || p.side == "CREDIT")
    && 0 < p.amount <= MAX_BIGINT
    && (IsPartyAccount(p.accountKind) <==> p.partyId.Some?)
  }

  predicate HasEntry(t: Tables, id: Uuid) {
    exists i :: 0 <= i < |t.entries| && t.entries[i].entryId == id
  }

  predicate HasPosting(t: Tables, id: Uuid) {
    exists i :: 0 <= i < |t.postings| && t.postings[i].postingId == id
  }

  predicate HasIdempotencyKey(t: Tables, key: string) {
    exists i :: 0 <= i < |t.entries| && t.entries[i].idempotencyKey == Some(key)
  }

  function EntryIds(rows: seq<Posting>): seq<Uuid> {
    seq(|rows|, i requires 0 <= i < |rows| => rows[i].entryId)
  }

  /** Every row passes its checks, refers to an entry and has a key of its own. */
  predicate CanInsert(t: Tables, rows: seq<Posting>) {
    && (forall i :: 0 <= i < |rows| ==>
          PostingChecks(rows[i]) && !HasPosting(t, rows[i].postingId) && HasEntry(t, rows[i].entryId))
    && (forall i, j :: 0 <= i < j < |rows| ==> rows[i].postingId != rows[j].postingId)
  }

  predicate Hits<T(!new)>(rows: seq<T>, hits: T -> bool) {
    exists i :: 0 <= i < |rows| && hits(rows[i])
  }

  function Updated<T>(rows: seq<T>, hits: T -> bool, change: T -> T): seq<T> {
    seq(|rows|, i requires 0 <= i < |rows| => if hits(rows[i]) then change(rows[i]) else rows[i])
  }

  function Spared<T>(rows: seq<T>, hits: T -> bool): seq<T> {
    if rows == [] then [] else (if hits(rows[0]) then [] else [rows[0]]) + Spared(rows[1..], hits)
  }

  /**
   One statement, or None when a constraint, an append-only trigger or an immediate balance check refuses it. A table
   whose deferred checks are still pending cannot be truncated.
   */
  function Execute(x: Tx, stmt: Statement): Option<Tx> {
    var t := x.tables;
    match stmt
    case InsertEntry(e) =>
      if EntryChecks(e) && !HasEntry(t, e.entryId)
        && (e.idempotencyKey.Some? ==> !HasIdempotencyKey(t, e.idempotencyKey.value))
      then Some(x.(tables := t.(entries := t.entries + [e]))) else None
    case InsertPostings(rows) =>
      var after := t.(postings := t.postings + rows);
      if !CanInsert(t, rows) then None
      else if !x.immediate then Some(Tx(after, x.queue + EntryIds(rows), false))
      else if TriggersPass(after.postings, EntryIds(rows)) then Some(x.(tables := after)) else None
    case UpdateEntries(hits, change) =>
      if Hits(t.entries, hits) then None
      else Some(x.(tables := t.(entries := Updated(t.entries, hits, change))))
    case DeleteEntries(hits) =>
      if Hits(t.entries, hits) then None else Some(x.(tables := t.(entries := Spared(t.entries, hits))))
    case UpdatePostings(hits, change) =>
      if Hits(t.postings, hits) then None
      else Some(x.(tables := t.(postings := Updated(t.postings, hits, change))))
    case DeletePostings(hits) =>
      if Hits(t.postings, hits) then None else Some(x.(tables := t.(postings := Spared(t.postings, hits))))
    case TruncatePostings => if x.queue != [] then None else Some(x.(tables := t.(postings := [])))
    case TruncateEntries(withPostings) => if !withPostings || x.queue != [] then None else Some(x.(tables := EMPTY))
    case SetConstraints(immediate) =>
      if !immediate then Some(x.(immediate := false))
      else if TriggersPass(t.postings, x.queue) then Some(Tx(t, [], true)) else None
  }

  // ---------------------------------------------------------------- sums over postings

  function OfEntry(rows: seq<Posting>, id: Uuid): seq<Posting> {
    if rows == [] then []
    else OfEntry(rows[..|rows| - 1], id) + if rows[|rows| - 1].entryId == id then [rows[|rows| - 1]] else []
  }

  function Total(rows: seq<Posting>, side: string): int {
    if rows == [] then 0
    else Total(rows[..|rows| - 1], side) + if rows[|rows| - 1].side == side then rows[|rows| - 1].amount else 0
  }

  function Currencies(rows: seq<Posting>): set<string> {
    set i | 0 <= i < |rows| :: rows[i].currency
  }

  datatype TriggerError = OutOfRange | TooFewPostings | MixedCurrencies | SingleSided | Unbalanced

  /** The trigger's verdict on one entry. Its counters are bigint and integer variables: too large a sum raises. */
  function Verdict(rows: seq<Posting>, id: Uuid): Option<TriggerError> {
    var own := OfEntry(rows, id);
    var debits, credits, currencies := Total(own, "DEBIT"), Total(own, "CREDIT"), |Currencies(own)|;
    if debits > MAX_BIGINT || credits > MAX_BIGINT || |own| > MAX_INTEGER || currencies > MAX_INTEGER then
      Some(OutOfRange)
    else if |own| == 0 then None
    else if |own| < 2 then Some(TooFewPostings)
    else if currencies > 1 then Some(MixedCurrencies)
    else if debits == 0 || credits == 0 then Some(SingleSided)
    else if debits != credits then Some(Unbalanced)
    else None
  }

  predicate TriggersPass(rows: seq<Posting>, queue: seq<Uuid>) {
    forall i :: 0 <= i < |queue| ==> Verdict(rows, queue[i]).None?
  }

  // ---------------------------------------------------------------- transactions

  function Begun(t: Tables): Tx {
    Tx(t, [], false)
  }

  function ExecuteAll(x: Tx, stmts: seq<Statement>): Option<Tx> {
    if stmts == [] then Some(x)
    else
      var before := ExecuteAll(x, stmts[..|stmts| - 1]);
      if before.None? then None else Execute(before.value, stmts[|stmts| - 1])
  }

  /** The statements all succeed, and so do the checks still queued at COMMIT. */
  predicate Commits(t: Tables, stmts: seq<Statement>) {
    var x := ExecuteAll(Begun(t), stmts);
    x.Some? && TriggersPass(x.value.tables.postings, x.value.queue)
  }

  /** All or nothing. */
  function Transact(t: Tables, stmts: seq<Statement>): Tables {
    if Commits(t, stmts) then ExecuteAll(Begun(t), stmts).value.tables else t
  }

  class LedgerDatabase {
    var tables: Tables
    var working: Tables
    var queue: seq<Uuid>
    var immediate: bool

    function Current(): Tx
      reads this
    {
      Tx(working, queue, immediate)
    }

    constructor ()
      ensures tables == EMPTY
    {
      tables, working, queue, immediate := EMPTY, EMPTY, [], false;
    }

    method Begin()
      modifies this
      ensures tables == old(tables) && Current() == Begun(tables)
    {
      working, queue, immediate := tables, [], false;
    }

    /** One statement on the working tables; balance checks are queued or made at once. */
    method Run(stmt: Statement) returns (ok: bool)
      modifies this`working, this`queue, this`immediate
      ensures var after := Execute(old(Current()), stmt);
        ok == after.Some? && Current() == if ok then after.value else old(Current())
    {
      match stmt
      case InsertPostings(rows) => ok := Insert(rows);
      case SetConstraints(now) => ok := Constrain(now);
      case _ =>
        var after := Execute(Current(), stmt);
        ok := after.Some?;
        if ok {
          working := after.value.tables;
        }
    }

    method Insert(rows: seq<Posting>) returns (ok: bool)
      modifies this`working, this`queue
      ensures var after := Execute(old(Current()), InsertPostings(rows));
        ok == after.Some? && Current() == if ok then after.value else old(Current())
    {
      if !CanInsert(working, rows) {
        return false;
      }
      var before := working;
      working := working.(postings := working.postings + rows);
      ok := true;
      if immediate {
        ok := Fire(EntryIds(rows));
        if !ok {
          working := before;
        }
      } else {
        queue := queue + EntryIds(rows);
      }
    }

    /** SET CONSTRAINTS: IMMEDIATE makes the queued checks now. */
    method Constrain(now: bool) returns (ok: bool)
      modifies this`queue, this`immediate
      ensures var after := Execute(old(Current()), SetConstraints(now));
        ok == after.Some? && Current() == if ok then after.value else old(Current())
    {
      ok := true;
      if now {
        ok := Fire(queue);
        if ok {
          queue := [];
          immediate := true;
        }
      } else {
        immediate := false;
      }
    }

    /** The trigger procedure for each of these entries; the first that raises decides. */
    method Fire(ids: seq<Uuid>) returns (ok: bool)
      ensures ok == TriggersPass(working.postings, ids)
    {
      for i := 0 to |ids|
        invariant forall j :: 0 <= j < i ==> Verdict(working.postings, ids[j]).None?
      {
        var error := AssertEntryBalances(ids[i]);
        if error.Some? {
          return false;
        }
      }
      ok := true;
    }

    /** The trigger's SELECT: one scan of all postings, filling its four variables. */
    method CountEntry(id: Uuid) returns (debits: int, credits: int, postings: int, currencies: set<string>)
      ensures Counted(OfEntry(working.postings, id), debits, credits, postings, currencies)
    {
      var rows := working.postings;
      debits, credits, postings, currencies := 0, 0, 0, {};
      for i := 0 to |rows|
        invariant Counted(OfEntry(rows[..i], id), debits, credits, postings, currencies)
      {
        OneMoreRow(rows, id, i);
        if rows[i].entryId == id {
          CountedOneMore(OfEntry(rows[..i], id), rows[i], debits, credits, postings, currencies);
          if rows[i].side == "DEBIT" {
            debits := debits + rows[i].amount;
          }
          if rows[i].side == "CREDIT" {
            credits := credits + rows[i].amount;
          }
          postings := postings + 1;
          currencies := currencies + {rows[i].currency};
        }
      }
      assert rows[..|rows|] == rows;
    }

    /** The trigger procedure: the counts, then the tests in order. */
    method AssertEntryBalances(id: Uuid) returns (error: Option<TriggerError>)
      ensures error == Verdict(working.postings, id)
    {
      var debits, credits, postings, currencies := CountEntry(id);
      if debits > MAX_BIGINT || credits > MAX_BIGINT || postings > MAX_INTEGER || |currencies| > MAX_INTEGER {
        return Some(OutOfRange);
      }
      if postings == 0 {
        return None;
      }
      if postings < 2 {
        return Some(TooFewPostings);
      }
      if |currencies| > 1 {
        return Some(MixedCurrencies);
      }
      if debits == 0 || credits == 0 {
        return Some(SingleSided);
      }
      if debits != credits {
        return Some(Unbalanced);
      }
      error := None;
    }

    /** The queued checks are made on the working tables; the first that raises undoes the transaction. */
    method Commit() returns (ok: bool)
      modifies this`tables
      ensures ok == TriggersPass(working.postings, queue)
      ensures tables == if ok then working else old(tables)
    {
      ok := Fire(queue);
      if ok {
        tables := working;
      }
    }

    method TransactAll(stmts: seq<Statement>) returns (ok: bool)
      modifies this
      ensures tables == Transact(old(tables), stmts) && ok == Commits(old(tables), stmts)
    {
      Begin();
      for i := 0 to |stmts|
        invariant tables == old(tables)
        invariant ExecuteAll(Begun(tables), stmts[..i]) == Some(Current())
      {
        assert stmts[..i + 1][..i] == stmts[..i];
        ok := Run(stmts[i]);
        if !ok {
          AbortIsFinal(Begun(tables), stmts, i + 1);
          return;
        }
      }
      assert stmts[..|stmts|] == stmts;
      ok := Commit();
    }
  }

  lemma OneMoreRow(rows: seq<Posting>, id: Uuid, i: nat)
    requires i < |rows|
    ensures OfEntry(rows[..i + 1], id) ==
      if rows[i].entryId == id then OfEntry(rows[..i], id) + [rows[i]] else OfEntry(rows[..i], id)
  {
    assert rows[..i + 1][..i] == rows[..i];
    assert OfEntry(rows[..i], id) + [] == OfEntry(rows[..i], id);
  }

  /** The trigger's four variables, after it has seen these postings of its entry. */
  predicate Counted(own: seq<Posting>, debits: int, credits: int, postings: int, currencies: set<string>) {
    && debits == Total(own, "DEBIT") && credits == Total(own, "CREDIT")
    && postings == |own| && currencies == Currencies(own)
  }

  lemma CountedOneMore(own: seq<Posting>, p: Posting, debits: int, credits: int, postings: int, currencies: set<string>)
    requires Counted(own, debits, credits, postings, currencies)
    ensures Counted(own + [p], debits + (if p.side == "DEBIT" then p.amount else 0),
                    credits + (if p.side == "CREDIT" then p.amount else 0), postings + 1, currencies + {p.currency})
  {
    CountOneMore(own, p);
  }

  lemma CountOneMore(rows: seq<Posting>, p: Posting)
    ensures Total(rows + [p], "DEBIT") == Total(rows, "DEBIT") + if p.side == "DEBIT" then p.amount else 0
    ensures Total(rows + [p], "CREDIT") == Total(rows, "CREDIT") + if p.side == "CREDIT" then p.amount else 0
    ensures Currencies(rows + [p]) == Currencies(rows) + {p.currency}
  {
    var more := rows + [p];
    assert more[..|rows|] == rows;
    forall c | c in Currencies(rows) + {p.currency} ensures c in Currencies(more) {
      if c == p.currency {
        assert more[|rows|].currency == c;
      } else {
        var i :| 0 <= i < |rows| && rows[i].currency == c;
        assert more[i].currency == c;
      }
    }
  }

  /** A failed prefix fails the whole list. */
  lemma {:induction false} AbortIsFinal(x: Tx, stmts: seq<Statement>, n: nat)
    requires n <= |stmts| && ExecuteAll(x, stmts[..n]).None?
    ensures ExecuteAll(x, stmts).None?
    decreases |stmts| - n
  {
    if n == |stmts| {
      assert stmts[..n] == stmts;
    } else {
      assert stmts[..n + 1][..n] == stmts[..n];
      AbortIsFinal(x, stmts, n + 1);
    }
  }

  // ---------------------------------------------------------------- what the guards are for

  /** The double-entry rule for one entry, said of its own postings. */
  predicate EntrySound(rows: seq<Posting>, id: Uuid) {
    var own := OfEntry(rows, id);
    own == [] ||
    (|own| >= 2 && (forall i, j :: 0 <= i < |own| && 0 <= j < |own| ==> own[i].currency == own[j].currency)
     && Total(own, "DEBIT") == Total(own, "CREDIT") && Total(own, "DEBIT") > 0)
  }

  /** Every row passed its checks, every posting has its entry, and no key is used twice. */
  ghost predicate WellKept(t: Tables) {
    && (forall i :: 0 <= i < |t.entries| ==> EntryChecks(t.entries[i]))
    && (forall i :: 0 <= i < |t.postings| ==> PostingChecks(t.postings[i]) && HasEntry(t, t.postings[i].entryId))
    && (forall i, j :: 0 <= i < j < |t.postings| ==> t.postings[i].postingId != t.postings[j].postingId)
    && (forall i, j :: 0 <= i < j < |t.entries| ==> t.entries[i].entryId != t.entries[j].entryId)
    && (forall i, j :: 0 <= i < j < |t.entries| && t.entries[i].idempotencyKey.Some? ==>
          t.entries[i].idempotencyKey != t.entries[j].idempotencyKey)
  }

  /** The books are sound: well kept, and every entry balances. */
  ghost predicate Sound(t: Tables) {
    WellKept(t) && forall id :: PassesCheck(t.postings, id)
  }

  /** An entry balances, and its sums fit the trigger's counters. */
  predicate PassesCheck(rows: seq<Posting>, id: Uuid) {
    EntrySound(rows, id) && InRange(rows, id)
  }

  predicate Extends(a: Tables, b: Tables) {
    a.entries <= b.entries && a.postings <= b.postings
  }

  predicate IsTruncation(stmt: Statement) {
    stmt.TruncatePostings? || stmt.TruncateEntries?
  }

  predicate IsMutation(stmt: Statement) {
    stmt.UpdateEntries? || stmt.DeleteEntries? || stmt.UpdatePostings? || stmt.DeletePostings?
  }

  /** The postings a statement inserts. */
  function Inserted(stmt: Statement): seq<Posting> {
    if stmt.InsertPostings? then stmt.rows else []
  }

  /** An UPDATE or DELETE of no row leaves the rows as they are. */
  lemma {:induction false} NoneHit<T(!new)>(rows: seq<T>, hits: T -> bool, change: T -> T)
    requires !Hits(rows, hits)
    ensures Updated(rows, hits, change) == rows && Spared(rows, hits) == rows
  {
    if rows != [] {
      assert !hits(rows[0]);
      assert forall i :: 0 <= i < |rows| - 1 ==> rows[1..][i] == rows[i + 1];
      NoneHit(rows[1..], hits, change);
    }
  }

  /** What a statement does to the rows: it appends some, or empties the postings or both tables. */
  lemma ExecuteDoes(x: Tx, stmt: Statement)
    requires Execute(x, stmt).Some?
    ensures var t, u := x.tables, Execute(x, stmt).value.tables;
      && u.entries == (if stmt.TruncateEntries? then [] else t.entries + if stmt.InsertEntry? then [stmt.entry] else [])
      && u.postings == if IsTruncation(stmt) then [] else t.postings + Inserted(stmt)
  {
    assert x.tables.postings + [] == x.tables.postings && x.tables.entries + [] == x.tables.entries;
    match stmt
    case UpdateEntries(hits, change) => NoneHit(x.tables.entries, hits, change);
    case DeleteEntries(hits) => NoneHit(x.tables.entries, hits, e => e);
    case UpdatePostings(hits, change) => NoneHit(x.tables.postings, hits, change);
    case DeletePostings(hits) => NoneHit(x.tables.postings, hits, p => p);
    case _ =>
  }

  lemma MutationsDoNothing(x: Tx, stmt: Statement)
    requires IsMutation(stmt) && Execute(x, stmt).Some?
    ensures Execute(x, stmt) == Some(x)
  {
    ExecuteDoes(x, stmt);
    assert x.tables.postings + [] == x.tables.postings && x.tables.entries + [] == x.tables.entries;
  }

  lemma EntryInsertedKeeps(t: Tables, e: Entry)
    requires WellKept(t) && Execute(Begun(t), InsertEntry(e)).Some?
    ensures WellKept(t.(entries := t.entries + [e]))
  {
    var u := t.(entries := t.entries + [e]);
    forall i | 0 <= i < |u.postings| ensures PostingChecks(u.postings[i]) && HasEntry(u, u.postings[i].entryId) {
      assert HasEntry(t, u.postings[i].entryId);
      var j :| 0 <= j < |t.entries| && t.entries[j].entryId == u.postings[i].entryId;
      assert u.entries[j] == t.entries[j];
    }
    forall i, j | 0 <= i < j < |u.entries|
      ensures u.entries[i].entryId != u.entries[j].entryId
      ensures u.entries[i].idempotencyKey.Some? ==> u.entries[i].idempotencyKey != u.entries[j].idempotencyKey
    {
      assert u.entries[i] == t.entries[i];
    }
  }

  lemma PostingsInsertedKeep(t: Tables, rows: seq<Posting>)
    requires WellKept(t) && CanInsert(t, rows)
    ensures WellKept(t.(postings := t.postings + rows))
  {
    var u := t.(postings := t.postings + rows);
    forall i | 0 <= i < |u.postings| ensures PostingChecks(u.postings[i]) && HasEntry(u, u.postings[i].entryId) {
      assert u.postings[i] == if i < |t.postings| then t.postings[i] else rows[i - |t.postings|];
      assert HasEntry(t, u.postings[i].entryId);
    }
    forall i, j | 0 <= i < j < |u.postings| ensures u.postings[i].postingId != u.postings[j].postingId {
      assert u.postings[i] == if i < |t.postings| then t.postings[i] else rows[i - |t.postings|];
      assert u.postings[j] == if j < |t.postings| then t.postings[j] else rows[j - |t.postings|];
    }
  }

  lemma ExecuteKeeps(x: Tx, stmt: Statement)
    requires WellKept(x.tables) && Execute(x, stmt).Some?
    ensures WellKept(Execute(x, stmt).value.tables)
  {
    match stmt
    case InsertEntry(e) => EntryInsertedKeeps(x.tables, e);
    case InsertPostings(rows) => PostingsInsertedKeep(x.tables, rows);
    case _ =>
      if IsMutation(stmt) {
        MutationsDoNothing(x, stmt);
      }
  }

  lemma {:induction false} OfEntryAppended(rows: seq<Posting>, more: seq<Posting>, id: Uuid)
    ensures OfEntry(rows + more, id) == OfEntry(rows, id) + OfEntry(more, id)
  {
    if more == [] {
      assert rows + more == rows && OfEntry(rows, id) + [] == OfEntry(rows, id);
    } else {
      var init, p := more[..|more| - 1], more[|more| - 1];
      assert (rows + more)[..|rows + more| - 1] == rows + init;
      OfEntryAppended(rows, init, id);
    }
  }

  /** An entry none of the rows is of has none of them. */
  lemma {:induction false} OfNoRow(rows: seq<Posting>, id: Uuid)
    ensures OfEntry(rows, id) == [] <==> id !in EntryIds(rows)
  {
    if rows != [] {
      var init := rows[..|rows| - 1];
      OfNoRow(init, id);
      assert EntryIds(rows) == EntryIds(init) + [rows[|rows| - 1].entryId];
    }
  }

  /** The rows a transaction inserts after its last truncation of their table, and whether there is one. */
  function EntriesSince(stmts: seq<Statement>): seq<Entry> {
    if stmts == [] then []
    else
      var last := stmts[|stmts| - 1];
      if last.TruncateEntries? then []
      else EntriesSince(stmts[..|stmts| - 1]) + if last.InsertEntry? then [last.entry] else []
  }

  function PostingsSince(stmts: seq<Statement>): seq<Posting> {
    if stmts == [] then []
    else
      var last := stmts[|stmts| - 1];
      if IsTruncation(last) then [] else PostingsSince(stmts[..|stmts| - 1]) + Inserted(last)
  }

  predicate TruncatesEntries(stmts: seq<Statement>) {
    exists i :: 0 <= i < |stmts| && stmts[i].TruncateEntries?
  }

  predicate TruncatesPostings(stmts: seq<Statement>) {
    exists i :: 0 <= i < |stmts| && IsTruncation(stmts[i])
  }

  lemma OneMoreTruncates(init: seq<Statement>, last: Statement)
    ensures TruncatesEntries(init + [last]) <==> TruncatesEntries(init) || last.TruncateEntries?
    ensures TruncatesPostings(init + [last]) <==> TruncatesPostings(init) || IsTruncation(last)
  {
    var all := init + [last];
    assert all[|init|] == last && forall i :: 0 <= i < |init| ==> all[i] == init[i];
  }

  lemma KeptAndSince<T>(kept: seq<T>, since: seq<T>, more: seq<T>)
    ensures (kept + since) + more == kept + (since + more)
  {
  }

  lemma SinceOneMore(init: seq<Statement>, last: Statement)
    ensures PostingsSince(init + [last]) == if IsTruncation(last) then [] else PostingsSince(init) + Inserted(last)
    ensures EntriesSince(init + [last]) ==
      if last.TruncateEntries? then [] else EntriesSince(init) + if last.InsertEntry? then [last.entry] else []
  {
    assert (init + [last])[..|init|] == init;
  }

  predicate PostingsStand(t: Tables, stmts: seq<Statement>, rows: seq<Posting>) {
    rows == (if TruncatesPostings(stmts) then [] else t.postings) + PostingsSince(stmts)
  }

  predicate EntriesStand(t: Tables, stmts: seq<Statement>, rows: seq<Entry>) {
    rows == (if TruncatesEntries(stmts) then [] else t.entries) + EntriesSince(stmts)
  }

  lemma PostingsStep(t: Tables, init: seq<Statement>, last: Statement, rows: seq<Posting>, after: seq<Posting>)
    requires PostingsStand(t, init, rows) && after == if IsTruncation(last) then [] else rows + Inserted(last)
    ensures PostingsStand(t, init + [last], after)
  {
    OneMoreTruncates(init, last);
    SinceOneMore(init, last);
    KeptAndSince(if TruncatesPostings(init) then [] else t.postings, PostingsSince(init), Inserted(last));
  }

  lemma EntriesStep(t: Tables, init: seq<Statement>, last: Statement, rows: seq<Entry>, after: seq<Entry>)
    requires EntriesStand(t, init, rows)
    requires after == if last.TruncateEntries? then [] else rows + if last.InsertEntry? then [last.entry] else []
    ensures EntriesStand(t, init + [last], after)
  {
    OneMoreTruncates(init, last);
    SinceOneMore(init, last);
    KeptAndSince(if TruncatesEntries(init) then [] else t.entries, EntriesSince(init),
                 if last.InsertEntry? then [last.entry] else []);
  }

  lemma ExecuteLast(x: Tx, init: seq<Statement>, last: Statement)
    ensures var before := ExecuteAll(x, init);
      ExecuteAll(x, init + [last]) == if before.None? then None else Execute(before.value, last)
  {
    assert (init + [last])[..|init|] == init;
  }

  /** What holds after a transaction's statements, on a sound ledger. */
  ghost predicate Holds(t: Tables, stmts: seq<Statement>, x: Tx) {
    && PostingsStand(t, stmts, x.tables.postings) && EntriesStand(t, stmts, x.tables.entries)
    && WellKept(x.tables) && forall id :: id !in x.queue ==> PassesCheck(x.tables.postings, id)
  }

  /** An entry whose check has been made, or whose postings did not change, is sound. */
  lemma InsertedSound(x: Tx, rows: seq<Posting>, id: Uuid)
    requires WellKept(x.tables) && Execute(x, InsertPostings(rows)).Some?
    requires id !in Execute(x, InsertPostings(rows)).value.queue
      && (id !in x.queue ==> PassesCheck(x.tables.postings, id))
    ensures PassesCheck(x.tables.postings + rows, id)
  {
    PostingsInsertedKeep(x.tables, rows);
    OfEntryAppended(x.tables.postings, rows, id);
    OfNoRow(rows, id);
    if id in EntryIds(rows) {
      var i :| 0 <= i < |EntryIds(rows)| && EntryIds(rows)[i] == id;
      VerdictMeansSound(x.tables.postings + rows, id);
    } else {
      assert OfEntry(x.tables.postings, id) + [] == OfEntry(x.tables.postings, id);
    }
  }

  lemma FiredSound(x: Tx, id: Uuid)
    requires WellKept(x.tables) && TriggersPass(x.tables.postings, x.queue)
    requires id !in x.queue ==> PassesCheck(x.tables.postings, id)
    ensures PassesCheck(x.tables.postings, id)
  {
    if id in x.queue {
      var i :| 0 <= i < |x.queue| && x.queue[i] == id;
      VerdictMeansSound(x.tables.postings, id);
    }
  }

  lemma SoundStep(x: Tx, stmt: Statement, id: Uuid)
    requires WellKept(x.tables) && Execute(x, stmt).Some? && id !in Execute(x, stmt).value.queue
    requires id !in x.queue ==> PassesCheck(x.tables.postings, id)
    ensures PassesCheck(Execute(x, stmt).value.tables.postings, id)
  {
    match stmt
    case InsertPostings(rows) => InsertedSound(x, rows, id);
    case SetConstraints(immediate) =>
      if immediate {
        FiredSound(x, id);
      }
    case _ =>
      if IsMutation(stmt) {
        MutationsDoNothing(x, stmt);
      }
  }

  lemma HoldsStep(t: Tables, init: seq<Statement>, last: Statement, x: Tx)
    requires Holds(t, init, x) && Execute(x, last).Some?
    ensures Holds(t, init + [last], Execute(x, last).value)
  {
    var y := Execute(x, last).value;
    ExecuteDoes(x, last);
    ExecuteKeeps(x, last);
    PostingsStep(t, init, last, x.tables.postings, y.tables.postings);
    EntriesStep(t, init, last, x.tables.entries, y.tables.entries);
    forall id | id !in y.queue ensures PassesCheck(y.tables.postings, id) {
      SoundStep(x, last, id);
    }
  }

  lemma {:induction false} ExecuteAllHolds(t: Tables, stmts: seq<Statement>)
    requires Sound(t) && ExecuteAll(Begun(t), stmts).Some?
    ensures Holds(t, stmts, ExecuteAll(Begun(t), stmts).value)
  {
    if stmts != [] {
      var init, last := stmts[..|stmts| - 1], stmts[|stmts| - 1];
      assert stmts == init + [last];
      ExecuteLast(Begun(t), init, last);
      ExecuteAllHolds(t, init);
      HoldsStep(t, init, last, ExecuteAll(Begun(t), init).value);
    } else {
      assert t.postings + [] == t.postings && t.entries + [] == t.entries;
    }
  }

  lemma {:induction false} OwnIsChecked(rows: seq<Posting>, id: Uuid)
    requires forall i :: 0 <= i < |rows| ==> PostingChecks(rows[i])
    ensures forall i :: 0 <= i < |OfEntry(rows, id)| ==> PostingChecks(OfEntry(rows, id)[i])
  {
    if rows != [] {
      OwnIsChecked(rows[..|rows| - 1], id);
    }
  }

  lemma {:induction false} TotalsAreNotNegative(rows: seq<Posting>, side: string)
    requires forall i :: 0 <= i < |rows| ==> PostingChecks(rows[i])
    ensures Total(rows, side) >= 0
  {
    if rows != [] {
      TotalsAreNotNegative(rows[..|rows| - 1], side);
    }
  }

  lemma OneCurrency(rows: seq<Posting>)
    ensures |Currencies(rows)| <= 1 <==>
      forall i, j :: 0 <= i < |rows| && 0 <= j < |rows| ==> rows[i].currency == rows[j].currency
  {
    var c := Currencies(rows);
    if |c| <= 1 {
      forall i, j | 0 <= i < |rows| && 0 <= j < |rows| ensures rows[i].currency == rows[j].currency {
        assert rows[i].currency in c && rows[j].currency in c;
        if rows[i].currency != rows[j].currency {
          assert {rows[i].currency, rows[j].currency} <= c;
          SubsetSize({rows[i].currency, rows[j].currency}, c);
        }
      }
    } else if rows != [] && forall i, j :: 0 <= i < |rows| && 0 <= j < |rows| ==> rows[i].currency == rows[j].currency {
      assert c == {rows[0].currency};
    }
  }

  lemma {:induction false} SubsetSize(a: set<string>, b: set<string>)
    requires a <= b
    ensures |a| <= |b|
  {
    if a != {} {
      var x :| x in a;
      SubsetSize(a - {x}, b - {x});
    }
  }

  predicate InRange(rows: seq<Posting>, id: Uuid) {
    var own := OfEntry(rows, id);
    Total(own, "DEBIT") <= MAX_BIGINT && Total(own, "CREDIT") <= MAX_BIGINT && |own| <= MAX_INTEGER
  }

  lemma CurrenciesAtMostRows(rows: seq<Posting>)
    ensures |Currencies(rows)| <= |rows|
  {
    if rows == [] {
      assert Currencies(rows) == {};
    } else {
      var init, p := rows[..|rows| - 1], rows[|rows| - 1];
      CurrenciesAtMostRows(init);
      CountOneMore(init, p);
      assert init + [p] == rows;
    }
  }

  /** The trigger passes exactly the entries that obey the double-entry rule and fit its counters. */
  lemma VerdictMeansSound(rows: seq<Posting>, id: Uuid)
    requires forall i :: 0 <= i < |rows| ==> PostingChecks(rows[i])
    ensures Verdict(rows, id).None? <==> PassesCheck(rows, id)
  {
    OwnIsChecked(rows, id);
    TotalsAreNotNegative(OfEntry(rows, id), "DEBIT");
    OneCurrency(OfEntry(rows, id));
    CurrenciesAtMostRows(OfEntry(rows, id));
  }

  /**
   Local checks give the global rule: on sound books the checks still queued at COMMIT, which look only at touched
   entries, all pass exactly when every entry of the resulting books balances and fits the trigger's counters --
   whatever was fired early by SET CONSTRAINTS.
   */
  lemma LocalChecksAreGlobal(t: Tables, stmts: seq<Statement>)
    requires Sound(t) && ExecuteAll(Begun(t), stmts).Some?
    ensures var x := ExecuteAll(Begun(t), stmts).value;
      TriggersPass(x.tables.postings, x.queue) <==> Sound(x.tables)
  {
    var x := ExecuteAll(Begun(t), stmts).value;
    ExecuteAllHolds(t, stmts);
    QueueDecides(x);
  }

  lemma QueueDecides(x: Tx)
    requires WellKept(x.tables) && forall id :: id !in x.queue ==> PassesCheck(x.tables.postings, id)
    ensures TriggersPass(x.tables.postings, x.queue) <==> Sound(x.tables)
  {
    forall i | 0 <= i < |x.queue|
      ensures Verdict(x.tables.postings, x.queue[i]).None? <==> PassesCheck(x.tables.postings, x.queue[i])
    {
      VerdictMeansSound(x.tables.postings, x.queue[i]);
    }
    if TriggersPass(x.tables.postings, x.queue) {
      forall id ensures PassesCheck(x.tables.postings, id) {
        FiredSound(x, id);
      }
    }
  }

  /** The trigger hangs on postings: on any ledger an entry that never gets one is committed, balanced or not. */
  lemma EntryWithoutPostingsCommits(t: Tables, e: Entry)
    requires Execute(Begun(t), InsertEntry(e)).Some?
    ensures Transact(t, [InsertEntry(e)]) == t.(entries := t.entries + [e])
  {
    assert [] + [InsertEntry(e)] == [InsertEntry(e)];
    ExecuteLast(Begun(t), [], InsertEntry(e));
  }

  /** The double-entry rule with nothing excused: at least two postings, one currency, equal positive sides. */
  predicate Balanced(rows: seq<Posting>, id: Uuid) {
    EntrySound(rows, id) && OfEntry(rows, id) != []
  }

  lemma NoPostingsWithoutEntry(rows: seq<Posting>, id: Uuid)
    requires forall i :: 0 <= i < |rows| ==> rows[i].entryId != id
    ensures OfEntry(rows, id) == []
  {
    OfNoRow(rows, id);
  }

  /**
   After a committed transaction on sound books a new entry obeys the double-entry rule exactly if a posting of it was
   inserted after the last truncation.
   */
  lemma NewEntriesBalanceExactly(t: Tables, stmts: seq<Statement>, id: Uuid)
    requires Sound(t) && !HasEntry(t, id) && Commits(t, stmts)
    ensures Balanced(Transact(t, stmts).postings, id) <==> id in EntryIds(PostingsSince(stmts))
  {
    var kept := if TruncatesPostings(stmts) then [] else t.postings;
    var rows := ExecuteAll(Begun(t), stmts).value.tables.postings;
    ExecuteAllHolds(t, stmts);
    LocalChecksAreGlobal(t, stmts);
    assert PassesCheck(rows, id) && rows == kept + PostingsSince(stmts);
    NewRowsOnly(t, kept, PostingsSince(stmts), id);
  }

  lemma NewRowsOnly(t: Tables, kept: seq<Posting>, since: seq<Posting>, id: Uuid)
    requires WellKept(t) && !HasEntry(t, id) && (kept == [] || kept == t.postings)
    ensures OfEntry(kept + since, id) != [] <==> id in EntryIds(since)
  {
    NoPostingsWithoutEntry(t.postings, id);
    OfEntryAppended(kept, since, id);
    OfNoRow(since, id);
  }

  /**
   A touched entry can lose its check to SET CONSTRAINTS and its postings to TRUNCATE, and is committed without any.
   */
  lemma FiredThenTruncated(t: Tables, e: Entry, rows: seq<Posting>)
    requires Execute(Begun(t), InsertEntry(e)).Some?
    requires var u := t.(entries := t.entries + [e]);
      CanInsert(u, rows) && TriggersPass(u.postings + rows, EntryIds(rows))
    ensures var stmts := [InsertEntry(e), InsertPostings(rows), SetConstraints(true), TruncatePostings];
      Commits(t, stmts) && Transact(t, stmts) == Tables(t.entries + [e], [])
  {
    var u := t.(entries := t.entries + [e]);
    var a, b, c := [InsertEntry(e)], InsertPostings(rows), SetConstraints(true);
    assert [] + a == a && a + [b] == [a[0], b] && [a[0], b] + [c] == [a[0], b, c];
    assert [a[0], b, c] + [TruncatePostings] == [a[0], b, c, TruncatePostings];
    ExecuteLast(Begun(t), [], a[0]);
    ExecuteLast(Begun(t), a, b);
    ExecuteLast(Begun(t), [a[0], b], c);
    ExecuteLast(Begun(t), [a[0], b, c], TruncatePostings);
    assert [] + EntryIds(rows) == EntryIds(rows);
  }

  // ---------------------------------------------------------------- the trial balance

  /** Debits minus credits in one currency. */
  function Net(rows: seq<Posting>, currency: string): int {
    if rows == [] then 0
    else
      var p := rows[|rows| - 1];
      Net(rows[..|rows| - 1], currency)
      + if p.currency != currency then 0 else if p.side == "DEBIT" then p.amount else if p.side == "CREDIT" then
        -p.amount else 0
  }

  function Without(rows: seq<Posting>, id: Uuid): seq<Posting> {
    if rows == [] then []
    else Without(rows[..|rows| - 1], id) + if rows[|rows| - 1].entryId == id then [] else [rows[|rows| - 1]]
  }

  lemma NetOneMore(rows: seq<Posting>, p: Posting, currency: string)
    ensures Net(rows + [p], currency) == Net(rows, currency)
      + if p.currency != currency then 0 else if p.side == "DEBIT" then p.amount else if p.side == "CREDIT" then
        -p.amount else 0
  {
    assert (rows + [p])[..|rows|] == rows;
  }

  /** Taking one entry out splits the net, the number of rows, and nothing else. */
  lemma {:induction false} SplitByEntry(rows: seq<Posting>, id: Uuid, currency: string)
    ensures Net(rows, currency) == Net(OfEntry(rows, id), currency) + Net(Without(rows, id), currency)
    ensures |rows| == |OfEntry(rows, id)| + |Without(rows, id)|
  {
    if rows != [] {
      var init, p := rows[..|rows| - 1], rows[|rows| - 1];
      SplitByEntry(init, id, currency);
      NetOneMore(OfEntry(init, id), p, currency);
      NetOneMore(Without(init, id), p, currency);
      assert OfEntry(init, id) + [] == OfEntry(init, id) && Without(init, id) + [] == Without(init, id);
    }
  }

  lemma {:induction false} OthersStay(rows: seq<Posting>, id: Uuid, other: Uuid)
    ensures OfEntry(Without(rows, id), other) == if other == id then [] else OfEntry(rows, other)
  {
    if rows != [] {
      var init, p := rows[..|rows| - 1], rows[|rows| - 1];
      OthersStay(init, id, other);
      if p.entryId != id {
        var w := Without(init, id) + [p];
        assert w[..|w| - 1] == Without(init, id);
      } else {
        assert Without(init, id) + [] == Without(init, id);
        assert other != id ==> OfEntry(rows, other) == OfEntry(init, other) + [];
      }
    }
  }

  lemma {:induction false} NetOfOneCurrency(rows: seq<Posting>, currency: string, own: string)
    requires forall i :: 0 <= i < |rows| ==> rows[i].currency == own
    ensures Net(rows, currency) == if currency == own then Total(rows, "DEBIT") - Total(rows, "CREDIT") else 0
  {
    if rows != [] {
      NetOfOneCurrency(rows[..|rows| - 1], currency, own);
    }
  }

  lemma {:induction false} TrialBalance(rows: seq<Posting>, currency: string)
    requires forall id :: EntrySound(rows, id)
    ensures Net(rows, currency) == 0
    decreases |rows|
  {
    if rows != [] {
      var id := rows[|rows| - 1].entryId;
      var own, rest := OfEntry(rows, id), Without(rows, id);
      assert EntrySound(rows, id) && |own| > 0;
      NetOfOneCurrency(own, currency, own[0].currency);
      SplitByEntry(rows, id, currency);
      forall other ensures EntrySound(rest, other) {
        OthersStay(rows, id, other);
        assert EntrySound(rows, other);
      }
      TrialBalance(rest, currency);
    }
  }

  // ---------------------------------------------------------------- every history

  function History(txs: seq<seq<Statement>>): Tables {
    if txs == [] then EMPTY else Transact(History(txs[..|txs| - 1]), txs[|txs| - 1])
  }

  lemma TransactKeepsSound(t: Tables, stmts: seq<Statement>)
    requires Sound(t)
    ensures Sound(Transact(t, stmts))
  {
    if ExecuteAll(Begun(t), stmts).Some? {
      LocalChecksAreGlobal(t, stmts);
    }
  }

  /** After every history the books are sound, and in every currency ledger-wide debits equal credits. */
  lemma {:induction false} BooksAlwaysBalance(txs: seq<seq<Statement>>, currency: string)
    ensures Sound(History(txs)) && Net(History(txs).postings, currency) == 0
  {
    if txs != [] {
      BooksAlwaysBalance(txs[..|txs| - 1], currency);
      TransactKeepsSound(History(txs[..|txs| - 1]), txs[|txs| - 1]);
    } else {
      assert forall id :: PassesCheck([], id);
    }
    forall id ensures EntrySound(History(txs).postings, id) {
      assert PassesCheck(History(txs).postings, id);
    }
    TrialBalance(History(txs).postings, currency);
  }

  // ---------------------------------------------------------------- which ledgers there can be

  /** A ledger as the migration describes it, row by row and entry by entry. */
  ghost predicate IsLedger(t: Tables) {
    && (forall e :: e in t.entries ==>
          0 < e.total <= MAX_BIGINT && (e.corrects.Some? ==> e.reason == "CORRECTION"))
    && (forall p :: p in t.postings ==> IsPosting(p) && exists e :: e in t.entries && e.entryId == p.entryId)
    && (forall i, j :: 0 <= i < j < |t.entries| ==> t.entries[i].entryId != t.entries[j].entryId)
    && (forall i, j :: 0 <= i < j < |t.entries| && t.entries[i].idempotencyKey.Some? ==>
          t.entries[i].idempotencyKey != t.entries[j].idempotencyKey)
    && (forall i, j :: 0 <= i < j < |t.postings| ==> t.postings[i].postingId != t.postings[j].postingId)
    && (forall id :: PassesCheck(t.postings, id))
  }

  predicate IsPosting(p: Posting) {
    && p.side in ["DEBIT", "CREDIT"] && 0 < p.amount <= MAX_BIGINT
    && (p.partyId.Some? <==> p.accountKind in ["DRIVER_CASH_CUSTODY", "MERCHANT_PAYABLE", "RECEIVER_REFUND_PAYABLE"])
  }

  lemma SoundIsLedger(t: Tables)
    ensures Sound(t) <==> IsLedger(t)
  {
    assert forall i :: 0 <= i < |t.entries| ==> t.entries[i] in t.entries;
    assert forall i :: 0 <= i < |t.postings| ==> t.postings[i] in t.postings;
    forall p ensures IsPosting(p) <==> PostingChecks(p) {
    }
    forall id ensures HasEntry(t, id) <==> exists e :: e in t.entries && e.entryId == id {
    }
  }

  function Filing(entries: seq<Entry>): (stmts: seq<Statement>)
    ensures |stmts| == |entries|
  {
    seq(|entries|, i requires 0 <= i < |entries| => InsertEntry(entries[i]))
  }

  lemma {:induction false} EntriesAreFiled(t: Tables, n: nat)
    requires Sound(t) && n <= |t.entries|
    ensures ExecuteAll(Begun(EMPTY), Filing(t.entries[..n])) == Some(Begun(Tables(t.entries[..n], [])))
  {
    if n > 0 {
      var init, e := t.entries[..n - 1], t.entries[n - 1];
      EntriesAreFiled(t, n - 1);
      assert t.entries[..n] == init + [e] && Filing(t.entries[..n]) == Filing(init) + [InsertEntry(e)];
      ExecuteLast(Begun(EMPTY), Filing(init), InsertEntry(e));
    }
  }

  /** All of it in one transaction: the entries one by one, then their postings in one statement. */
  lemma LedgerIsReached(t: Tables)
    requires Sound(t)
    ensures History([Filing(t.entries) + [InsertPostings(t.postings)]]) == t
  {
    var stmts, last := Filing(t.entries), InsertPostings(t.postings);
    var u := Tables(t.entries, []);
    EntriesAreFiled(t, |t.entries|);
    assert t.entries[..|t.entries|] == t.entries;
    assert CanInsert(u, t.postings) by {
      assert forall id :: HasEntry(t, id) ==> HasEntry(u, id);
    }
    ExecuteLast(Begun(EMPTY), stmts, last);
    assert [] + t.postings == t.postings && [] + EntryIds(t.postings) == EntryIds(t.postings);
    forall i | 0 <= i < |t.postings| ensures Verdict(t.postings, EntryIds(t.postings)[i]).None? {
      VerdictMeansSound(t.postings, t.postings[i].entryId);
    }
    var txs := [stmts + [last]];
    assert txs[..0] == [] && History([]) == EMPTY;
  }

  /**
   The guards are exact: the ledgers that some history of transactions leads to are those the migration describes, no
   more and no less.
   */
  lemma ReachableExactly(t: Tables)
    ensures (exists txs :: History(txs) == t) <==> IsLedger(t)
  {
    SoundIsLedger(t);
    if txs :| History(txs) == t {
      BooksAlwaysBalance(txs, "");
    }
    if Sound(t) {
      LedgerIsReached(t);
    }
  }

  predicate IsMixed(own: seq<Posting>) {
    exists i, j :: 0 <= i < |own| && 0 <= j < |own| && own[i].currency != own[j].currency
  }

  predicate IsOneSided(own: seq<Posting>) {
    forall i, j :: 0 <= i < |own| && 0 <= j < |own| ==> own[i].side == own[j].side
  }

  /** What each error says of an entry's postings. */
  predicate IsTrueOf(error: TriggerError, own: seq<Posting>) {
    match error
    case OutOfRange => false
    case TooFewPostings => |own| == 1
    case MixedCurrencies => |own| > 1 && IsMixed(own)
    case SingleSided => |own| > 1 && !IsMixed(own) && IsOneSided(own)
    case Unbalanced => !IsMixed(own) && !IsOneSided(own) && Total(own, "DEBIT") != Total(own, "CREDIT")
  }

  lemma MixedExactly(own: seq<Posting>)
    ensures |Currencies(own)| > 1 <==> IsMixed(own)
  {
    OneCurrency(own);
  }

  lemma OneSidedExactly(own: seq<Posting>)
    requires own != [] && forall i :: 0 <= i < |own| ==> PostingChecks(own[i])
    ensures Total(own, "DEBIT") == 0 || Total(own, "CREDIT") == 0 <==> IsOneSided(own)
  {
    TotalsAreNotNegative(own, "DEBIT");
    TotalsAreNotNegative(own, "CREDIT");
    SidesShow(own, "DEBIT");
    SidesShow(own, "CREDIT");
  }

  lemma RangeExactly(rows: seq<Posting>, id: Uuid)
    ensures Verdict(rows, id) == Some(OutOfRange) <==> !InRange(rows, id)
  {
    CurrenciesAtMostRows(OfEntry(rows, id));
  }

  /** Which error the trigger raises: sums too large for its counters first, and else one that is true of the entry. */
  lemma VerdictSays(rows: seq<Posting>, id: Uuid)
    requires forall i :: 0 <= i < |rows| ==> PostingChecks(rows[i])
    ensures Verdict(rows, id) == Some(OutOfRange) <==> !InRange(rows, id)
    ensures InRange(rows, id) && Verdict(rows, id).Some? ==> IsTrueOf(Verdict(rows, id).value, OfEntry(rows, id))
  {
    var own := OfEntry(rows, id);
    RangeExactly(rows, id);
    OwnIsChecked(rows, id);
    MixedExactly(own);
    if own != [] {
      OneSidedExactly(own);
    }
  }

  lemma {:induction false} SidesShow(rows: seq<Posting>, side: string)
    requires forall i :: 0 <= i < |rows| ==> PostingChecks(rows[i])
    ensures Total(rows, side) > 0 <==> exists i :: 0 <= i < |rows| && rows[i].side == side
  {
    if rows != [] {
      TotalsAreNotNegative(rows[..|rows| - 1], side);
      SidesShow(rows[..|rows| - 1], side);
    }
  }

  // ---------------------------------------------------------------- append-only, but for TRUNCATE

  /** A committed transaction truncates rows of the ledger and does not insert them all again first thing afterwards. */
  predicate Erases(t: Tables, stmts: seq<Statement>) {
    && Commits(t, stmts)
    && ((TruncatesEntries(stmts) && !(t.entries <= EntriesSince(stmts)))
        || (TruncatesPostings(stmts) && !(t.postings <= PostingsSince(stmts))))
  }

  /** One TRUNCATE of a ledger with postings is such a transaction. */
  lemma TruncateErases(t: Tables)
    requires t.postings != []
    ensures Erases(t, [TruncatePostings]) && Transact(t, [TruncatePostings]) == t.(postings := [])
  {
    var stmts := [TruncatePostings];
    assert [] + stmts == stmts;
    ExecuteLast(Begun(t), [], TruncatePostings);
    assert IsTruncation(stmts[0]);
  }

  lemma StartsWithAll<T>(earlier: seq<T>, truncated: bool, since: seq<T>)
    ensures earlier <= (if truncated then [] else earlier) + since <==> !(truncated && !(earlier <= since))
  {
    assert [] + since == since;
  }

  lemma TransactGrows(t: Tables, stmts: seq<Statement>)
    requires Sound(t)
    ensures Extends(t, Transact(t, stmts)) <==> !Erases(t, stmts)
  {
    if Commits(t, stmts) {
      ExecuteAllHolds(t, stmts);
      StartsWithAll(t.entries, TruncatesEntries(stmts), EntriesSince(stmts));
      StartsWithAll(t.postings, TruncatesPostings(stmts), PostingsSince(stmts));
    }
  }

  /** The rows a statement meets, told from the rows at the start and the statements before it. */
  function EntriesMet(t: Tables, before: seq<Statement>): seq<Entry> {
    (if TruncatesEntries(before) then [] else t.entries) + EntriesSince(before)
  }

  function PostingsMet(t: Tables, before: seq<Statement>): seq<Posting> {
    (if TruncatesPostings(before) then [] else t.postings) + PostingsSince(before)
  }

  /** An UPDATE or DELETE that hits one of the rows it meets. */
  predicate Touches(t: Tables, before: seq<Statement>, stmt: Statement) {
    match stmt
    case UpdateEntries(hits, _) => exists e :: e in EntriesMet(t, before) && hits(e)
    case DeleteEntries(hits) => exists e :: e in EntriesMet(t, before) && hits(e)
    case UpdatePostings(hits, _) => exists p :: p in PostingsMet(t, before) && hits(p)
    case DeletePostings(hits) => exists p :: p in PostingsMet(t, before) && hits(p)
    case _ => false
  }

  lemma {:induction false} RowsMet(t: Tables, stmts: seq<Statement>)
    requires ExecuteAll(Begun(t), stmts).Some?
    ensures var x := ExecuteAll(Begun(t), stmts).value;
      x.tables.entries == EntriesMet(t, stmts) && x.tables.postings == PostingsMet(t, stmts)
  {
    if stmts == [] {
      assert t.postings + [] == t.postings && t.entries + [] == t.entries;
    } else {
      var init, last := stmts[..|stmts| - 1], stmts[|stmts| - 1];
      assert stmts == init + [last];
      ExecuteLast(Begun(t), init, last);
      RowsMet(t, init);
      var x := ExecuteAll(Begun(t), init).value;
      ExecuteDoes(x, last);
      PostingsStep(t, init, last, x.tables.postings, Execute(x, last).value.tables.postings);
      EntriesStep(t, init, last, x.tables.entries, Execute(x, last).value.tables.entries);
    }
  }

  lemma TouchingIsRefused(t: Tables, before: seq<Statement>, stmt: Statement, x: Tx)
    requires x.tables.entries == EntriesMet(t, before) && x.tables.postings == PostingsMet(t, before)
    requires IsMutation(stmt)
    ensures Execute(x, stmt) == if Touches(t, before, stmt) then None else Some(x)
  {
    HitsIsHitting(EntriesMet(t, before), if stmt.UpdateEntries? || stmt.DeleteEntries? then stmt.hits else _ => false);
    HitsIsHitting(PostingsMet(t, before),
                  if stmt.UpdatePostings? || stmt.DeletePostings? then stmt.hitsRow else _ => false);
    if Execute(x, stmt).Some? {
      MutationsDoNothing(x, stmt);
    }
  }

  lemma HitsIsHitting<T(!new)>(rows: seq<T>, hits: T -> bool)
    ensures Hits(rows, hits) <==> exists r :: r in rows && hits(r)
  {
  }

  lemma {:induction false} PrefixesRun(x: Tx, stmts: seq<Statement>, n: nat)
    requires n <= |stmts| && ExecuteAll(x, stmts).Some?
    ensures ExecuteAll(x, stmts[..n]).Some?
  {
    if ExecuteAll(x, stmts[..n]).None? {
      AbortIsFinal(x, stmts, n);
    }
  }

  /** A committed transaction contains no UPDATE or DELETE that hit a row of its table, old or its own. */
  lemma CommittedTouchesNothing(t: Tables, stmts: seq<Statement>, i: nat)
    requires Commits(t, stmts) && i < |stmts|
    ensures !Touches(t, stmts[..i], stmts[i])
  {
    PrefixesRun(Begun(t), stmts, i);
    PrefixesRun(Begun(t), stmts, i + 1);
    assert stmts[..i + 1] == stmts[..i] + [stmts[i]];
    ExecuteLast(Begun(t), stmts[..i], stmts[i]);
    RowsMet(t, stmts[..i]);
    if IsMutation(stmts[i]) {
      TouchingIsRefused(t, stmts[..i], stmts[i], ExecuteAll(Begun(t), stmts[..i]).value);
    }
  }

  /** One that hits no row changes nothing and stops nothing; one that does aborts the transaction. */
  lemma MutationsPassExactly(t: Tables, stmts: seq<Statement>, stmt: Statement)
    requires IsMutation(stmt)
    ensures Commits(t, stmts + [stmt]) <==> Commits(t, stmts) && !Touches(t, stmts, stmt)
    ensures Transact(t, stmts + [stmt]) == if Touches(t, stmts, stmt) then t else Transact(t, stmts)
  {
    ExecuteLast(Begun(t), stmts, stmt);
    if ExecuteAll(Begun(t), stmts).Some? {
      RowsMet(t, stmts);
      TouchingIsRefused(t, stmts, stmt, ExecuteAll(Begun(t), stmts).value);
    }
  }

  /** Each ledger of a history extends every earlier one. */
  ghost predicate AppendOnly(txs: seq<seq<Statement>>) {
    forall m, n :: 0 <= m <= n <= |txs| ==> Extends(History(txs[..m]), History(txs[..n]))
  }

  predicate ErasesAt(txs: seq<seq<Statement>>, k: nat)
    requires k < |txs|
  {
    Erases(History(txs[..k]), txs[k])
  }

  lemma NextGrows(txs: seq<seq<Statement>>, k: nat)
    requires k < |txs|
    ensures Extends(History(txs[..k]), History(txs[..k + 1])) <==> !ErasesAt(txs, k)
  {
    assert txs[..k + 1][..k] == txs[..k];
    BooksAlwaysBalance(txs[..k], "");
    TransactGrows(History(txs[..k]), txs[k]);
  }

  lemma ExtendsOnward(a: Tables, b: Tables, c: Tables)
    requires Extends(a, b) && Extends(b, c)
    ensures Extends(a, c)
  {
  }

  lemma {:induction false} GrowsWithoutErasing(txs: seq<seq<Statement>>, m: nat, n: nat)
    requires m <= n <= |txs| && forall k :: m <= k < n ==> !ErasesAt(txs, k)
    ensures Extends(History(txs[..m]), History(txs[..n]))
    decreases n
  {
    if m < n {
      GrowsWithoutErasing(txs, m, n - 1);
      NextGrows(txs, n - 1);
      ExtendsOnward(History(txs[..m]), History(txs[..n - 1]), History(txs[..n]));
    }
  }

  /**
   The append-only triggers do what they are for, whatever UPDATEs and DELETEs are tried, up to TRUNCATE: a history is
   append-only exactly if none of its transactions erases rows by truncating.
   */
  lemma HistoryOnlyGrows(txs: seq<seq<Statement>>)
    ensures AppendOnly(txs) <==> forall k :: 0 <= k < |txs| ==> !ErasesAt(txs, k)
  {
    if AppendOnly(txs) {
      forall k | 0 <= k < |txs| ensures !ErasesAt(txs, k) {
        NextGrows(txs, k);
      }
    }
    if forall k :: 0 <= k < |txs| ==> !ErasesAt(txs, k) {
      forall m, n | 0 <= m <= n <= |txs| ensures Extends(History(txs[..m]), History(txs[..n])) {
        GrowsWithoutErasing(txs, m, n);
      }
    }
  }
}
