/**
 * ProcessTransactionCommandHandler: applies one ledger transaction to the
 * consolidation of its day. The day's row is loaded or created, the amount is
 * added as a credit or a debit according to the type text (compared ignoring
 * case), the row is saved and the day's cache entry is removed. The
 * transaction id is only logged, so the same command processed twice is
 * applied twice.
 */
module ProcessTransaction {
  import opened Common
  import opened Text
  import opened DailyConsolidationDomain
  import opened ConsolidationRepository
  import opened ConsolidationContracts

  /** The clock and the infrastructure calls of one execution that throw. */
  datatype ProcessEnvironment = ProcessEnvironment(now: Ticks, readFails: bool, saveFails: bool, cacheRemoveFails: bool)

  const ProcessFailedError := Error("Consolidation.ProcessFailed", "An error occurred while processing the transaction")

  function InvalidTypeError(kind: string): Error {
    Error("Transaction.InvalidType", "Invalid transaction type: " + kind)
  }

  /** The aggregate call a command dispatches to, if its type is recognised. */
  function EntryOf(cmd: ProcessTransactionCommand): (r: Option<Entry>)
    ensures r == Some(CreditEntry(cmd.amount)) <==> EqualsIgnoreCase(cmd.kind, "Credit")
    ensures r == Some(DebitEntry(cmd.amount)) <==> !EqualsIgnoreCase(cmd.kind, "Credit") && EqualsIgnoreCase(cmd.kind, "Debit")
    ensures r.Some? ==> r.value.amount == cmd.amount
  {
    if EqualsIgnoreCase(cmd.kind, "Credit") then Some(CreditEntry(cmd.amount))
    else if EqualsIgnoreCase(cmd.kind, "Debit") then Some(DebitEntry(cmd.amount))
    else None
  }

  /** An execution that saves the updated row. */
  predicate Persists(cmd: ProcessTransactionCommand, env: ProcessEnvironment) {
    !env.readFails && EntryOf(cmd).Some? && cmd.amount >= 0.0 && !env.saveFails
  }

  /** An execution that reports success: it saved and then removed the cache entry. */
  predicate Succeeds(cmd: ProcessTransactionCommand, env: ProcessEnvironment) {
    Persists(cmd, env) && !env.cacheRemoveFails
  }

  /** The figures of a day, zero when it has no row. */
  function DayTotals(rows: map<int, ConsolidationRow>, day: int): Totals {
    if day in rows then rows[day].totals else Zero
  }

  /** The day's consolidation: the stored row when there is one, a new zero row otherwise. */
  method LoadOrCreate(store: ConsolidationStore, date: Ticks, now: Ticks) returns (c: DailyConsolidation, isNew: bool)
    requires store.Valid()
    modifies store
    ensures fresh(c)
    ensures store.Valid() && store.rows == old(store.rows)
    ensures isNew <==> DayOf(date) !in store.rows
    ensures !isNew ==> c.Row() == store.rows[DayOf(date)]
    ensures isNew ==> c.Row() == ConsolidationRow(old(store.nextId), DateOf(date), Zero, now, now)
    ensures c.date == DateOf(date) && Balanced(c.Current())
  {
    var existing := GetByDate(store.rows, date);
    if existing.None? {
      var id := store.NewId();
      c := new DailyConsolidation.Create(id, date, now);
      isNew := true;
    } else {
      c := new DailyConsolidation.Load(existing.value);
      isNew := false;
    }
  }

  /** The switch on the type text, then AddCredit or AddDebit. */
  method Dispatch(c: DailyConsolidation, cmd: ProcessTransactionCommand, now: Ticks) returns (r: Outcome<Error>)
    modifies c
    ensures r.Pass? <==> EntryOf(cmd).Some? && cmd.amount >= 0.0
    ensures r.Fail? ==> r.error == if EntryOf(cmd).None? then InvalidTypeError(cmd.kind) else ProcessFailedError
    ensures r.Pass? ==> c.Row() == old(c.Row()).(totals := Applied(old(c.Current()), EntryOf(cmd).value), lastUpdated := now)
  {
    var applied: Outcome<string>;
    if EqualsIgnoreCase(cmd.kind, "Credit") {
      applied := c.AddCredit(cmd.amount, now);
    } else if EqualsIgnoreCase(cmd.kind, "Debit") {
      applied := c.AddDebit(cmd.amount, now);
    } else {
      return Fail(InvalidTypeError(cmd.kind));
    }
    r := if applied.Fail? then Fail(ProcessFailedError) else Pass;
  }

  /**
   * The row a persisted command leaves for its day: the stored row with the entry applied,
   * or, for a day without a row, a new row under the fresh id created and updated now.
   */
  function UpdatedRow(rows: map<int, ConsolidationRow>, day: int, newId: Guid, e: Entry, now: Ticks): (r: ConsolidationRow)
    ensures r.totals == Applied(DayTotals(rows, day), e) && r.lastUpdated == now
    ensures day in rows ==> r.id == rows[day].id && r.date == rows[day].date && r.createdAt == rows[day].createdAt
    ensures day !in rows ==> r.id == newId && r.date == day * TicksPerDay && r.createdAt == now
  {
    if day in rows then rows[day].(totals := Applied(rows[day].totals, e), lastUpdated := now)
    else ConsolidationRow(newId, day * TicksPerDay, Applied(Zero, e), now, now)
  }

  /** The row loaded or created for a day, with the entry applied and stamped now, is that day's updated row. */
  lemma UpdatedRowOfLoaded(rows: map<int, ConsolidationRow>, day: int, newId: Guid, e: Entry, now: Ticks,
                           before: ConsolidationRow)
    requires day in rows ==> before == rows[day]
    requires day !in rows ==> before == ConsolidationRow(newId, day * TicksPerDay, Zero, now, now)
    ensures before.(totals := Applied(before.totals, e), lastUpdated := now) == UpdatedRow(rows, day, newId, e, now)
  {
  }

  /** Load or create the day's row, apply the command and save: everything before the cache call. */
  method ApplyAndSave(store: ConsolidationStore, cmd: ProcessTransactionCommand, env: ProcessEnvironment)
    returns (r: Outcome<Error>)
    requires store.Valid()
    modifies store
    ensures store.Valid()
    ensures r.Pass? <==> EntryOf(cmd).Some? && cmd.amount >= 0.0 && !env.saveFails
    ensures r.Fail? ==> r.error == if EntryOf(cmd).None? then InvalidTypeError(cmd.kind) else ProcessFailedError
    ensures store.rows == if r.Pass? then
      old(store.rows)[DayOf(cmd.transactionDate) :=
        UpdatedRow(old(store.rows), DayOf(cmd.transactionDate), old(store.nextId), EntryOf(cmd).value, env.now)]
      else old(store.rows)
  {
    var date := DateOf(cmd.transactionDate);
    ghost var day := DayOf(cmd.transactionDate);
    assert DayOf(date) == day;
    var consolidation, isNew := LoadOrCreate(store, date, env.now);
    ghost var before := consolidation.Row();
    r := Dispatch(consolidation, cmd, env.now);
    if r.Fail? {
      return;
    }
    AppliedKeepsBalanced(before.totals, EntryOf(cmd).value);
    var row := consolidation.Row();
    UpdatedRowOfLoaded(old(store.rows), day, old(store.nextId), EntryOf(cmd).value, env.now, before);
    assert row.date == date;
    var saved := store.Save(row, isNew, env.saveFails);
    if !saved {
      r := Fail(ProcessFailedError);
    }
  }

  /** Handle(ProcessTransactionCommand). */
  method Handle(store: ConsolidationStore, cache: Cache<DailyConsolidationDto>, cmd: ProcessTransactionCommand,
                env: ProcessEnvironment) returns (r: Outcome<Error>)
    requires store.Valid()
    modifies store, cache
    ensures store.Valid()
    ensures r.Pass? <==> Succeeds(cmd, env)
    ensures r.Fail? ==>
      r.error == if !env.readFails && EntryOf(cmd).None? then InvalidTypeError(cmd.kind) else ProcessFailedError
    // Only the row of the command's day changes, and only by the one call.
    ensures store.rows == if Persists(cmd, env) then
      old(store.rows)[DayOf(cmd.transactionDate) :=
        UpdatedRow(old(store.rows), DayOf(cmd.transactionDate), old(store.nextId), EntryOf(cmd).value, env.now)]
      else old(store.rows)
    ensures cache.entries == if Succeeds(cmd, env) then old(cache.entries) - {ConsolidationKey(DayOf(cmd.transactionDate))}
                             else old(cache.entries)
    // A coherent cache stays coherent, except when the entry removal fails after the save.
    ensures Coherent(old(cache.entries), old(store.rows)) && (Succeeds(cmd, env) || !Persists(cmd, env)) ==>
      Coherent(cache.entries, store.rows)
  {
    if env.readFails {
      return Fail(ProcessFailedError);
    }
    r := ApplyAndSave(store, cmd, env);
    if r.Fail? {
      return;
    }
    if env.cacheRemoveFails {
      return Fail(ProcessFailedError);
    }
    var day := DayOf(cmd.transactionDate);
    if Coherent(cache.entries, old(store.rows)) {
      CoherentAfterWrite(cache.entries, old(store.rows), day, store.rows[day]);
    }
    cache.Remove(ConsolidationKey(day));
  }

  /**
   * The transaction id takes no part in processing: the same command persisted twice is
   * counted twice and its amount added twice.
   */
  lemma ProcessedTwiceCountsTwice(rows: map<int, ConsolidationRow>, cmd: ProcessTransactionCommand, id1: Guid, id2: Guid,
                                  now1: Ticks, now2: Ticks)
    requires EntryOf(cmd).Some? && cmd.amount >= 0.0
    ensures var day := DayOf(cmd.transactionDate);
      var e := EntryOf(cmd).value;
      var twice := UpdatedRow(rows[day := UpdatedRow(rows, day, id1, e, now1)], day, id2, e, now2).totals;
      && twice.transactionCount == DayTotals(rows, day).transactionCount + 2
      && twice.balance == DayTotals(rows, day).balance + 2.0 * (if e.CreditEntry? then cmd.amount else -cmd.amount)
  {
  }

  /** Removing a day's entry while its row is rewritten keeps the cache coherent. */
  lemma CoherentAfterWrite(entries: map<CacheKey, DailyConsolidationDto>, rows: map<int, ConsolidationRow>,
                           day: int, row: ConsolidationRow)
    requires Coherent(entries, rows)
    ensures Coherent(entries - {ConsolidationKey(day)}, rows[day := row])
  {
    forall k | k in entries - {ConsolidationKey(day)}
      ensures k.ConsolidationKey? && k.day in rows[day := row] && entries[k] == ToDto(rows[day := row][k.day])
    {
      assert k.day != day;
    }
  }

  /**
   * When the removal fails after the save, the entry cached for the day still shows the
   * figures from before the update: readers see stale figures until the entry expires.
   */
  lemma StaleWhenRemovalFails(entries: map<CacheKey, DailyConsolidationDto>, rows: map<int, ConsolidationRow>,
                              day: int, row: ConsolidationRow)
    requires Coherent(entries, rows)
    requires ConsolidationKey(day) in entries && row.totals != rows[day].totals
    ensures entries[ConsolidationKey(day)] != ToDto(row)
    ensures !Coherent(entries, rows[day := row])
  {
    assert entries[ConsolidationKey(day)] == ToDto(rows[day]);
  }
}
