/**
 * The two consolidation handlers together: ProcessTransaction removes the
 * cache entry under the key GetDailyConsolidation reads, so a query for any
 * moment of the processed day, made after a successful processing, answers the
 * updated row and never the figures cached before it.
 */
module ReadAfterProcess {
  import opened Common
  import opened Calendar
  import opened DailyConsolidationDomain
  import opened ConsolidationRepository
  import opened ConsolidationContracts
  import ProcessTransaction
  import GetDailyConsolidation

  /** Processes cmd and then queries the consolidation of date, a moment of the same day. */
  method ProcessThenRead(store: ConsolidationStore, cache: Cache<DailyConsolidationDto>, cmd: ProcessTransactionCommand,
                         env: ProcessTransaction.ProcessEnvironment, date: Ticks)
    returns (processed: Outcome<Error>, read: Result<DailyConsolidationDto, Error>)
    requires store.Valid() && Coherent(cache.entries, store.rows)
    requires DayOf(date) == DayOf(cmd.transactionDate)
    modifies store, cache
    ensures processed.Pass? <==> ProcessTransaction.Succeeds(cmd, env)
    ensures processed.Pass? ==>
      read == Success(ToDto(ProcessTransaction.UpdatedRow(old(store.rows), DayOf(date), old(store.nextId),
                                                         ProcessTransaction.EntryOf(cmd).value, env.now)))
    ensures processed.Pass? ==>
      read.value.transactionCount == ProcessTransaction.DayTotals(old(store.rows), DayOf(date)).transactionCount + 1
    ensures processed.Pass? && ProcessTransaction.EntryOf(cmd).value.CreditEntry? ==>
      read.value.totalCredits == ProcessTransaction.DayTotals(old(store.rows), DayOf(date)).totalCredits + cmd.amount
    ensures processed.Pass? && ProcessTransaction.EntryOf(cmd).value.DebitEntry? ==>
      read.value.totalDebits == ProcessTransaction.DayTotals(old(store.rows), DayOf(date)).totalDebits + cmd.amount
    ensures processed.Pass? ==> Coherent(cache.entries, store.rows)
  {
    processed := ProcessTransaction.Handle(store, cache, cmd, env);
    read := GetDailyConsolidation.Handle(store, cache, date, ReadFaults(false, false, false));
  }
}
