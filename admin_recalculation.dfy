/**
 * AdminController.RecalculateConsolidation: rebuilds one day's consolidation
 * from the ledger. The day's transactions are read from the Transactions
 * database in creation order, the day's consolidation row is deleted, and each
 * transaction is replayed through the ProcessTransaction handler; a failed
 * replay is only logged. The response reports how many transactions were
 * fetched, whether or not they were applied.
 */
module AdminRecalculation {
  import opened Common
  import opened Text
  import opened TransactionDomain
  import opened Sorting
  import TransactionRepository
  import opened DailyConsolidationDomain
  import opened ConsolidationRepository
  import opened ConsolidationContracts
  import opened ProcessTransaction

  /** Whether the Transactions connection string is set, and which database calls throw. */
  datatype AdminEnvironment = AdminEnvironment(connectionConfigured: bool, fetchFails: bool, lookupFails: bool, deleteFails: bool)

  datatype AdminResponse =
    | BadRequest(error: string)
    | Ok(message: string, date: Ticks, transactionsProcessed: nat)

  const NotConfigured := "TransactionsConnection not configured"
  const RecalculationFailed := "Recalculation failed"
  const RecalculationCompleted := "Recalculation completed successfully"

  /** The type column read back as text: 1 is "Credit", every other value "Debit". */
  function StoredTypeText(code: int): (r: string)
    ensures r == "Credit" <==> code == 1
    ensures r == "Debit" <==> code != 1
  {
    if code == 1 then "Credit" else "Debit"
  }

  /** The text a stored transaction's type reads back as is the name of its type. */
  lemma StoredTypeTextIsName(kind: TransactionType)
    ensures StoredTypeText(TypeCode(kind)) == TypeName(kind)
  {
  }

  /** The command built for one fetched transaction. */
  function ReplayCommand(t: Transaction): (r: ProcessTransactionCommand)
    ensures r.transactionId == t.id && r.amount == t.amount && r.transactionDate == t.transactionDate
    ensures r.kind == TypeName(t.kind)
  {
    ProcessTransactionCommand(t.id, t.amount, StoredTypeText(TypeCode(t.kind)), t.transactionDate)
  }

  /** The AddCredit or AddDebit call a transaction stands for. */
  function LedgerEntry(t: Transaction): Entry {
    match t.kind
    case Credit => CreditEntry(t.amount)
    case Debit => DebitEntry(t.amount)
  }

  function LedgerEntries(ts: seq<Transaction>): (r: seq<Entry>)
    ensures |r| == |ts|
    ensures forall i :: 0 <= i < |ts| ==> r[i] == LedgerEntry(ts[i])
  {
    if ts == [] then [] else LedgerEntries(ts[..|ts| - 1]) + [LedgerEntry(ts[|ts| - 1])]
  }

  /** The handler dispatches a replayed transaction to the call its type stands for. */
  lemma ReplayDispatch(t: Transaction)
    ensures EntryOf(ReplayCommand(t)) == Some(LedgerEntry(t))
  {
    var kind := ReplayCommand(t).kind;
    if t.kind == Credit {
      assert EqualsIgnoreCase(kind, "Credit");
    } else {
      assert !EqualsIgnoreCase(kind, "Credit") by { assert |kind| != |"Credit"|; }
      assert EqualsIgnoreCase(kind, "Debit");
    }
  }

  /** The calls of the replays that saved, in order; replay i runs in envs(i). */
  function PersistedEntries(ts: seq<Transaction>, envs: nat -> ProcessEnvironment): (r: seq<Entry>)
    ensures |r| <= |ts|
  {
    if ts == [] then []
    else
      var k := |ts| - 1;
      PersistedEntries(ts[..k], envs) + (if Persists(ReplayCommand(ts[k]), envs(k)) then [LedgerEntry(ts[k])] else [])
  }

  /** A replay whose reads and saves all work yields the fold of every fetched transaction. */
  lemma {:induction false} HealthyReplayIsFold(t: Totals, ts: seq<Transaction>, envs: nat -> ProcessEnvironment)
    requires forall i: nat :: i < |ts| ==> !envs(i).readFails && !envs(i).saveFails
    ensures AppliedAll(t, PersistedEntries(ts, envs)) == AppliedAll(t, LedgerEntries(ts))
  {
    if ts != [] {
      var k := |ts| - 1;
      HealthyReplayIsFold(t, ts[..k], envs);
      ReplayDispatch(ts[k]);
      assert LedgerEntries(ts)[..k] == LedgerEntries(ts[..k]);
      if Persists(ReplayCommand(ts[k]), envs(k)) {
        assert PersistedEntries(ts, envs)[..|PersistedEntries(ts, envs)| - 1] == PersistedEntries(ts[..k], envs);
      } else {
        assert PersistedEntries(ts, envs) == PersistedEntries(ts[..k], envs);
      }
    }
  }

  /** The SELECT of the day's transactions, ordered by created_at. */
  function FetchDay(ledger: seq<Transaction>, date: Ticks): (r: seq<Transaction>)
    ensures forall t :: t in r <==> t in ledger && DayOf(t.transactionDate) == DayOf(date)
    ensures |r| == TransactionRepository.CountByDate(ledger, date)
    ensures SortedByKey(r, TransactionRepository.CreatedAtOf)
  {
    TransactionRepository.CountMatchesListing(ledger, date);
    TransactionRepository.GetByDate(ledger, date)
  }

  /** One more replay extends the persisted calls by that replay's call, if it saved. */
  lemma PersistedStep(t: Totals, ts: seq<Transaction>, i: nat, envs: nat -> ProcessEnvironment)
    requires i < |ts|
    ensures PersistedEntries(ts[..i + 1], envs) ==
      PersistedEntries(ts[..i], envs) + (if Persists(ReplayCommand(ts[i]), envs(i)) then [LedgerEntry(ts[i])] else [])
    ensures AppliedAll(t, PersistedEntries(ts[..i + 1], envs)) ==
      if Persists(ReplayCommand(ts[i]), envs(i)) then Applied(AppliedAll(t, PersistedEntries(ts[..i], envs)), LedgerEntry(ts[i]))
      else AppliedAll(t, PersistedEntries(ts[..i], envs))
  {
    assert ts[..i + 1][..i] == ts[..i];
    var prev := PersistedEntries(ts[..i], envs);
    if Persists(ReplayCommand(ts[i]), envs(i)) {
      assert (prev + [LedgerEntry(ts[i])])[..|prev|] == prev;
    } else {
      assert prev + [] == prev;
    }
  }

  /** A day has a row after one more replay exactly when it had one before or that replay saved. */
  lemma RowPresenceStep(hadRow: bool, hasRow: bool, hadRowAtStart: bool, ts: seq<Transaction>, i: nat,
                        envs: nat -> ProcessEnvironment)
    requires i < |ts|
    requires hadRow <==> hadRowAtStart || PersistedEntries(ts[..i], envs) != []
    requires hasRow <==> hadRow || Persists(ReplayCommand(ts[i]), envs(i))
    ensures hasRow <==> hadRowAtStart || PersistedEntries(ts[..i + 1], envs) != []
  {
    assert ts[..i + 1][..i] == ts[..i];
  }

  /** One iteration of the foreach: the transaction's command through the handler. */
  method ReplayOne(store: ConsolidationStore, cache: Cache<DailyConsolidationDto>, t: Transaction, day: int,
                   env: ProcessEnvironment)
    requires store.Valid()
    requires DayOf(t.transactionDate) == day
    modifies store, cache
    ensures store.Valid()
    ensures DayTotals(store.rows, day) ==
      if Persists(ReplayCommand(t), env) then Applied(DayTotals(old(store.rows), day), LedgerEntry(t))
      else DayTotals(old(store.rows), day)
    ensures day in store.rows <==> day in old(store.rows) || Persists(ReplayCommand(t), env)
    ensures store.rows - {day} == old(store.rows) - {day}
    ensures cache.entries == old(cache.entries) || cache.entries == old(cache.entries) - {ConsolidationKey(day)}
  {
    var command := ReplayCommand(t);
    ReplayDispatch(t);
    var result := Handle(store, cache, command, env);
    assert store.rows - {day} == old(store.rows) - {day} by {
      if Persists(command, env) {
        assert old(store.rows)[day := store.rows[day]] - {day} == old(store.rows) - {day};
      }
    }
  }

  /** Replay i of the foreach, stated over the replays so far and the state before the first. */
  method ReplayNext(store: ConsolidationStore, cache: Cache<DailyConsolidationDto>, ts: seq<Transaction>, i: nat, day: int,
                    envs: nat -> ProcessEnvironment, ghost rowsAtStart: map<int, ConsolidationRow>,
                    ghost entriesAtStart: map<CacheKey, DailyConsolidationDto>)
    requires i < |ts| && store.Valid() && DayOf(ts[i].transactionDate) == day
    requires DayTotals(store.rows, day) == AppliedAll(DayTotals(rowsAtStart, day), PersistedEntries(ts[..i], envs))
    requires day in store.rows <==> day in rowsAtStart || PersistedEntries(ts[..i], envs) != []
    requires store.rows - {day} == rowsAtStart - {day}
    requires cache.entries == entriesAtStart || cache.entries == entriesAtStart - {ConsolidationKey(day)}
    modifies store, cache
    ensures store.Valid()
    ensures DayTotals(store.rows, day) == AppliedAll(DayTotals(rowsAtStart, day), PersistedEntries(ts[..i + 1], envs))
    ensures day in store.rows <==> day in rowsAtStart || PersistedEntries(ts[..i + 1], envs) != []
    ensures store.rows - {day} == rowsAtStart - {day}
    ensures cache.entries == entriesAtStart || cache.entries == entriesAtStart - {ConsolidationKey(day)}
  {
    PersistedStep(DayTotals(rowsAtStart, day), ts, i, envs);
    ghost var hadRow := day in store.rows;
    ReplayOne(store, cache, ts[i], day, envs(i));
    RowPresenceStep(hadRow, day in store.rows, day in rowsAtStart, ts, i, envs);
    assert entriesAtStart - {ConsolidationKey(day)} - {ConsolidationKey(day)} == entriesAtStart - {ConsolidationKey(day)};
  }

  /** The foreach over the fetched transactions, each replayed through the handler. */
  method ReplayAll(store: ConsolidationStore, cache: Cache<DailyConsolidationDto>, ts: seq<Transaction>, day: int,
                   envs: nat -> ProcessEnvironment)
    requires store.Valid()
    requires forall t :: t in ts ==> DayOf(t.transactionDate) == day
    modifies store, cache
    ensures store.Valid()
    ensures DayTotals(store.rows, day) == AppliedAll(DayTotals(old(store.rows), day), PersistedEntries(ts, envs))
    // The day has a row afterwards exactly when it had one before or some replay saved.
    ensures day in store.rows <==> day in old(store.rows) || PersistedEntries(ts, envs) != []
    ensures store.rows - {day} == old(store.rows) - {day}
    ensures cache.entries == old(cache.entries) || cache.entries == old(cache.entries) - {ConsolidationKey(day)}
    ensures ts == [] ==> cache.entries == old(cache.entries) && store.rows == old(store.rows)
  {
    if ts == [] {
      // The foreach has nothing to replay.
      return;
    }
    var i := 0;
    assert ts[..0] == [];
    while i < |ts|
      invariant 0 <= i <= |ts|
      invariant store.Valid()
      invariant DayTotals(store.rows, day) == AppliedAll(DayTotals(old(store.rows), day), PersistedEntries(ts[..i], envs))
      invariant day in store.rows <==> day in old(store.rows) || PersistedEntries(ts[..i], envs) != []
      invariant store.rows - {day} == old(store.rows) - {day}
      invariant cache.entries == old(cache.entries) || cache.entries == old(cache.entries) - {ConsolidationKey(day)}
    {
      assert ts[i] in ts;
      ReplayNext(store, cache, ts, i, day, envs, old(store.rows), old(cache.entries));
      i := i + 1;
    }
    assert ts[..i] == ts;
  }

  /** RecalculateConsolidation(date); replay i runs in envs(i). */
  method Recalculate(store: ConsolidationStore, cache: Cache<DailyConsolidationDto>, ledger: seq<Transaction>, date: Ticks,
                     env: AdminEnvironment, envs: nat -> ProcessEnvironment) returns (r: AdminResponse)
    requires store.Valid()
    modifies store, cache
    ensures store.Valid()
    ensures r == BadRequest(NotConfigured) <==> !env.connectionConfigured
    ensures r == BadRequest(RecalculationFailed) <==>
      env.connectionConfigured && (env.fetchFails || env.lookupFails || (DayOf(date) in old(store.rows) && env.deleteFails))
    ensures r.BadRequest? ==> store.rows == old(store.rows) && cache.entries == old(cache.entries)
    ensures r.Ok? ==>
      var fetched := FetchDay(ledger, date);
      && r == Ok(RecalculationCompleted, DateOf(date), |fetched|)
      && DayTotals(store.rows, DayOf(date)) == AppliedAll(Zero, PersistedEntries(fetched, envs))
      // The old row is gone: the day has a row only if some replay saved one.
      && (DayOf(date) in store.rows <==> PersistedEntries(fetched, envs) != [])
      && store.rows - {DayOf(date)} == old(store.rows) - {DayOf(date)}
      && (cache.entries == old(cache.entries) || cache.entries == old(cache.entries) - {ConsolidationKey(DayOf(date))})
  {
    if !env.connectionConfigured {
      return BadRequest(NotConfigured);
    }
    if env.fetchFails {
      return BadRequest(RecalculationFailed);
    }
    var transactions := FetchDay(ledger, date);
    if env.lookupFails {
      return BadRequest(RecalculationFailed);
    }
    var existing := GetByDate(store.rows, date);
    if existing.Some? {
      if env.deleteFails {
        return BadRequest(RecalculationFailed);
      }
      store.DeleteDay(DayOf(date));
    }
    assert DayTotals(store.rows, DayOf(date)) == Zero;
    ReplayAll(store, cache, transactions, DayOf(date), envs);
    r := Ok(RecalculationCompleted, DateOf(date), |transactions|);
  }

  /**
   * When every replay can read and save, the recomputed day holds the sums of the day's
   * ledger: whatever the row held before, two recomputes over an unchanged ledger agree.
   */
  lemma HealthyRecalculation(ledger: seq<Transaction>, date: Ticks, envs: nat -> ProcessEnvironment)
    requires forall i: nat :: !envs(i).readFails && !envs(i).saveFails
    ensures var es := LedgerEntries(FetchDay(ledger, date));
      var totals := AppliedAll(Zero, PersistedEntries(FetchDay(ledger, date), envs));
      && totals.totalCredits == CreditSum(es) && totals.totalDebits == DebitSum(es)
      && totals.balance == CreditSum(es) - DebitSum(es)
      && totals.transactionCount == AcceptedCount(es)
  {
    var fetched := FetchDay(ledger, date);
    HealthyReplayIsFold(Zero, fetched, envs);
    AppliedFromZero(LedgerEntries(fetched));
  }
}
