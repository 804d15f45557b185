/**
 * The data the Consolidation application layer exchanges: the command built
 * from a TransactionCreated event and the consolidation DTO that the queries
 * return and the cache holds.
 */
module ConsolidationContracts {
  import opened Common
  import opened DailyConsolidationDomain

  /** ProcessTransactionCommand. The type is the text carried by the event. */
  datatype ProcessTransactionCommand = ProcessTransactionCommand(
    transactionId: Guid,
    amount: real,
    kind: string,
    transactionDate: Ticks)

  datatype DailyConsolidationDto = DailyConsolidationDto(
    id: Guid,
    date: Ticks,
    totalCredits: real,
    totalDebits: real,
    balance: real,
    transactionCount: int,
    lastUpdated: Ticks)

  /** The AutoMapper profile: member by member. */
  function ToDto(row: ConsolidationRow): (r: DailyConsolidationDto)
    ensures r.id == row.id && r.date == row.date && r.lastUpdated == row.lastUpdated
    ensures Totals(r.totalCredits, r.totalDebits, r.balance, r.transactionCount) == row.totals
  {
    DailyConsolidationDto(row.id, row.date, row.totals.totalCredits, row.totals.totalDebits, row.totals.balance,
                          row.totals.transactionCount, row.lastUpdated)
  }

  /** The consolidation cache holds, under each day's key, the DTO of that day's stored row. */
  ghost predicate Coherent(entries: map<CacheKey, DailyConsolidationDto>, rows: map<int, ConsolidationRow>) {
    forall k :: k in entries ==> k.ConsolidationKey? && k.day in rows && entries[k] == ToDto(rows[k.day])
  }
}
