/**
 * GetTransactionByIdQueryHandler: a read-through cache in front of the ledger.
 * The cache is consulted first under "transaction:{id}"; on a miss the store is
 * read and a found transaction's DTO is cached for five minutes. Any thrown
 * exception, a cache failure included, becomes a RetrievalFailed error.
 */
module GetTransactionById {
  import opened Common
  import opened TransactionDomain
  import opened TransactionRepository
  import opened TransactionContracts

  const RetrievalFailedError := Error("Transaction.RetrievalFailed", "An error occurred while retrieving the transaction")

  function NotFoundError(id: Guid): Error {
    Error("Transaction.NotFound", "Transaction with ID " + GuidText(id) + " not found")
  }

  /** What a read of the ledger alone answers. */
  function StoredAnswer(rows: seq<Transaction>, id: Guid): Result<TransactionDto, Error> {
    match GetById(rows, id)
    case Some(t) => Success(ToDto(t))
    case None => Failure(NotFoundError(id))
  }

  /** Every cached entry is a transaction key whose value is the DTO of the stored transaction with that id. */
  ghost predicate Coherent(entries: map<CacheKey, TransactionDto>, rows: seq<Transaction>) {
    forall k :: k in entries ==> k.TransactionKey? && GetById(rows, k.id).Some? && entries[k] == ToDto(GetById(rows, k.id).value)
  }

  /** Saving a transaction with a fresh id keeps a coherent cache coherent. */
  lemma CoherentAfterAppend(entries: map<CacheKey, TransactionDto>, rows: seq<Transaction>, t: Transaction)
    requires Coherent(entries, rows)
    ensures Coherent(entries, rows + [t])
  {
    forall k | k in entries
      ensures GetById(rows + [t], k.id) == GetById(rows, k.id)
    {
      GetByIdAfterAppend(rows, t, k.id);
    }
  }

  /** Caching the DTO of a stored transaction under its own key keeps a coherent cache coherent. */
  lemma CoherentAfterSet(entries: map<CacheKey, TransactionDto>, rows: seq<Transaction>, id: Guid)
    requires Coherent(entries, rows) && GetById(rows, id).Some?
    ensures Coherent(entries[TransactionKey(id) := ToDto(GetById(rows, id).value)], rows)
  {
  }

  /** Handle(GetTransactionByIdQuery). */
  method Handle(store: TransactionStore, cache: Cache<TransactionDto>, id: Guid, faults: ReadFaults)
    returns (r: Result<TransactionDto, Error>)
    modifies cache
    ensures var key := TransactionKey(id);
      if faults.cacheGetFails then r == Failure(RetrievalFailedError) && cache.entries == old(cache.entries)
      else if key in old(cache.entries) then r == Success(old(cache.entries)[key]) && cache.entries == old(cache.entries)
      else if faults.storeFails then r == Failure(RetrievalFailedError) && cache.entries == old(cache.entries)
      else match GetById(store.rows, id)
        case None => r == Failure(NotFoundError(id)) && cache.entries == old(cache.entries)
        case Some(t) =>
          if faults.cacheSetFails then r == Failure(RetrievalFailedError) && cache.entries == old(cache.entries)
          else r == Success(ToDto(t)) && cache.entries == old(cache.entries)[key := ToDto(t)]
    // Reading through a coherent cache answers what the ledger answers, and keeps the cache coherent.
    ensures Coherent(old(cache.entries), store.rows) ==> Coherent(cache.entries, store.rows)
    ensures Coherent(old(cache.entries), store.rows) && !faults.cacheGetFails && !faults.storeFails && !faults.cacheSetFails ==>
      r == StoredAnswer(store.rows, id)
  {
    var cacheKey := TransactionKey(id);
    if faults.cacheGetFails {
      return Failure(RetrievalFailedError);
    }
    if cacheKey in cache.entries {
      return Success(cache.entries[cacheKey]);
    }
    if faults.storeFails {
      return Failure(RetrievalFailedError);
    }
    var transaction := GetById(store.rows, id);
    if transaction.None? {
      return Failure(NotFoundError(id));
    }
    var dto := ToDto(transaction.value);
    if faults.cacheSetFails {
      return Failure(RetrievalFailedError);
    }
    if Coherent(cache.entries, store.rows) {
      CoherentAfterSet(cache.entries, store.rows, id);
    }
    cache.Set(cacheKey, dto);
    r := Success(dto);
  }
}
