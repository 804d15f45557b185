/**
 * GetDailyConsolidationQueryHandler: a read-through cache in front of the
 * consolidation table. The cache is consulted first under
 * "consolidation:yyyy-MM-dd" of the requested day, the key the
 * ProcessTransaction handler removes; on a miss the stored row is read and its
 * DTO cached for ten minutes. Any thrown exception, a cache failure included,
 * becomes a RetrievalFailed error.
 */
module GetDailyConsolidation {
  import opened Common
  import opened Calendar
  import opened DailyConsolidationDomain
  import opened ConsolidationRepository
  import opened ConsolidationContracts

  const RetrievalFailedError := Error("Consolidation.RetrievalFailed", "An error occurred while retrieving the consolidation")

  function NotFoundError(day: int): Error {
    Error("Consolidation.NotFound", "No consolidation found for date " + DateText(day))
  }

  /** What a read of the table alone answers. */
  function StoredAnswer(rows: map<int, ConsolidationRow>, date: Ticks): (r: Result<DailyConsolidationDto, Error>)
    ensures r.Success? <==> DayOf(date) in rows
    ensures r.Success? ==> r.value == ToDto(rows[DayOf(date)])
    ensures r.Failure? ==> r.error == NotFoundError(DayOf(date))
  {
    match GetByDate(rows, date)
    case Some(row) => Success(ToDto(row))
    case None => Failure(NotFoundError(DayOf(date)))
  }

  /** Handle(GetDailyConsolidationQuery). */
  method Handle(store: ConsolidationStore, cache: Cache<DailyConsolidationDto>, date: Ticks, faults: ReadFaults)
    returns (r: Result<DailyConsolidationDto, Error>)
    modifies cache
    ensures var key := ConsolidationKey(DayOf(date));
      if faults.cacheGetFails then r == Failure(RetrievalFailedError) && cache.entries == old(cache.entries)
      else if key in old(cache.entries) then r == Success(old(cache.entries)[key]) && cache.entries == old(cache.entries)
      else if faults.storeFails then r == Failure(RetrievalFailedError) && cache.entries == old(cache.entries)
      else if DayOf(date) !in store.rows then r == Failure(NotFoundError(DayOf(date))) && cache.entries == old(cache.entries)
      else if faults.cacheSetFails then r == Failure(RetrievalFailedError) && cache.entries == old(cache.entries)
      else r == Success(ToDto(store.rows[DayOf(date)])) && cache.entries == old(cache.entries)[key := r.value]
    // Reading through a coherent cache answers what the table answers, and keeps the cache coherent.
    ensures Coherent(old(cache.entries), store.rows) ==> Coherent(cache.entries, store.rows)
    ensures Coherent(old(cache.entries), store.rows) && !faults.cacheGetFails && !faults.storeFails && !faults.cacheSetFails ==>
      r == StoredAnswer(store.rows, date)
  {
    var day := DateOf(date);
    var cacheKey := ConsolidationKey(DayOf(day));
    if faults.cacheGetFails {
      return Failure(RetrievalFailedError);
    }
    if cacheKey in cache.entries {
      return Success(cache.entries[cacheKey]);
    }
    if faults.storeFails {
      return Failure(RetrievalFailedError);
    }
    var consolidation := GetByDate(store.rows, day);
    if consolidation.None? {
      return Failure(NotFoundError(DayOf(day)));
    }
    var dto := ToDto(consolidation.value);
    if faults.cacheSetFails {
      return Failure(RetrievalFailedError);
    }
    cache.Set(cacheKey, dto);
    r := Success(dto);
  }
}
