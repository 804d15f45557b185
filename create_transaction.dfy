/**
 * CreateTransactionCommandHandler: idempotent admission of a new ledger entry.
 * A request whose idempotency key is already stored gets the stored transaction
 * back; otherwise the type is parsed, the duplicate scan runs (it only warns),
 * the aggregate is created and saved, and a TransactionCreated event is
 * published, a publishing failure being logged and ignored.
 */
module CreateTransaction {
  import opened Common
  import opened Text
  import opened TransactionDomain
  import opened TransactionRepository
  import opened Deduplication
  import opened TransactionContracts

  /** The event bus (RabbitMQ): the events it has accepted, in order. */
  class EventBus {
    var published: seq<TransactionCreatedEvent>
    var nextEventId: Guid

    constructor ()
      ensures published == []
    {
      published := [];
      nextEventId := 0;
    }

    /** Guid.NewGuid() for an event id. */
    method NewEventId() returns (id: Guid)
      modifies this
      ensures id == old(nextEventId) && nextEventId == id + 1 && published == old(published)
    {
      id := nextEventId;
      nextEventId := nextEventId + 1;
    }

    /** PublishAsync: the event is accepted unless the broker call throws. */
    method Publish(e: TransactionCreatedEvent, fails: bool) returns (delivered: bool)
      modifies this
      ensures delivered == !fails
      ensures published == if fails then old(published) else old(published) + [e]
      ensures nextEventId == old(nextEventId)
    {
      if fails {
        return false;
      }
      published := published + [e];
      delivered := true;
    }
  }

  /** Which infrastructure calls of one request throw. */
  datatype CreateFaults = CreateFaults(lookupFails: bool, scanFails: bool, saveFails: bool, publishFails: bool)

  const InvalidTypeError := Error("Transaction.InvalidType", "Invalid transaction type. Must be 'Credit' or 'Debit'")
  const CreateFailedError := Error("Transaction.CreateFailed", "An error occurred while creating the transaction")

  function ReplayMessage(id: Guid): string {
    "Transaction already exists with this idempotency key. Returning existing transaction (ID: " + GuidText(id) + ")."
  }

  function CreatedMessage(duplicateCount: nat): string {
    if duplicateCount > 0 then
      "Transaction created successfully. Warning: " + NatToString(duplicateCount) + " potential duplicate(s) detected."
    else "Transaction created successfully."
  }

  /** The duplicate scan's view of a request. */
  function QueryOf(cmd: CreateTransactionCommand): DuplicateQuery {
    DuplicateQuery(cmd.amount, cmd.kind, cmd.description, cmd.transactionDate, cmd.reference)
  }

  /** The new transaction's DTO; the warnings are attached only when the scan found something. */
  function CreatedDto(t: Transaction, duplicates: seq<PotentialDuplicate>): (r: TransactionDto)
    ensures r.potentialDuplicates.Some? <==> duplicates != []
    ensures r.potentialDuplicates.Some? ==> r.potentialDuplicates.value == duplicates
    ensures r.(potentialDuplicates := None) == ToDto(t)
    ensures r.id == t.id
  {
    var dto := ToDto(t);
    if duplicates == [] then dto else dto.(potentialDuplicates := Some(duplicates))
  }

  /** The event for a saved transaction: its id, amount, type name and date, under a fresh event id. */
  function CreatedEvent(t: Transaction, eventId: Guid, now: Ticks): TransactionCreatedEvent {
    TransactionCreatedEvent(eventId, now, t.id, t.amount, TypeName(t.kind), t.transactionDate)
  }

  /** A request that gets as far as saving a new transaction. */
  predicate Admits(rows: seq<Transaction>, cmd: CreateTransactionCommand, faults: CreateFaults) {
    !faults.lookupFails
    && GetByIdempotencyKey(rows, cmd.idempotencyKey).None?
    && ParseTransactionType(cmd.kind).Some?
    && !faults.scanFails
    && Admissible(cmd.amount, cmd.description, cmd.idempotencyKey)
    && !faults.saveFails
  }

  /** The transaction a request creates, with the id it is given and the creation time. */
  function NewTransaction(cmd: CreateTransactionCommand, id: Guid, now: Ticks): Transaction
    requires ParseTransactionType(cmd.kind).Some?
  {
    Transaction(id, cmd.amount, ParseTransactionType(cmd.kind).value, cmd.description, cmd.transactionDate,
                cmd.idempotencyKey, cmd.reference, now)
  }

  /** PublishTransactionCreatedEventAsync: a failure to publish is swallowed. */
  method PublishTransactionCreated(bus: EventBus, t: Transaction, now: Ticks, publishFails: bool)
    modifies bus
    ensures bus.published == old(bus.published) + (if publishFails then [] else [CreatedEvent(t, old(bus.nextEventId), now)])
  {
    var eventId := bus.NewEventId();
    var e := TransactionCreatedEvent(eventId, now, t.id, t.amount, TypeName(t.kind), t.transactionDate);
    var _ := bus.Publish(e, publishFails);
  }

  /** Handle(CreateTransactionCommand). */
  method Handle(store: TransactionStore, bus: EventBus, cmd: CreateTransactionCommand, now: Ticks, faults: CreateFaults)
    returns (r: Result<TransactionResponseDto, Error>)
    requires store.Valid()
    modifies store, bus
    ensures store.Valid()
    // An already stored key: the stored transaction comes back, nothing else happens.
    ensures !faults.lookupFails && GetByIdempotencyKey(old(store.rows), cmd.idempotencyKey).Some? ==>
      var existing := GetByIdempotencyKey(old(store.rows), cmd.idempotencyKey).value;
      r == Success(TransactionResponseDto(ToDto(existing), false, ReplayMessage(existing.id)))
    // A new transaction is reported exactly when one was saved.
    ensures (r.Success? && r.value.isNewTransaction) <==> Admits(old(store.rows), cmd, faults)
    ensures Admits(old(store.rows), cmd, faults) ==>
      var t := NewTransaction(cmd, old(store.nextId), now);
      var duplicates := Detect(old(store.rows), QueryOf(cmd), now);
      && store.rows == old(store.rows) + [t]
      && r.value.transaction == CreatedDto(t, duplicates)
      && r.value.message == CreatedMessage(|duplicates|)
      && bus.published == old(bus.published) + (if faults.publishFails then [] else [CreatedEvent(t, old(bus.nextEventId), now)])
    ensures !Admits(old(store.rows), cmd, faults) ==> store.rows == old(store.rows) && bus.published == old(bus.published)
    // The two error outcomes.
    ensures r == Failure(InvalidTypeError) <==>
      !faults.lookupFails && GetByIdempotencyKey(old(store.rows), cmd.idempotencyKey).None?
      && ParseTransactionType(cmd.kind).None?
    ensures r == Failure(CreateFailedError) <==>
      faults.lookupFails
      || (GetByIdempotencyKey(old(store.rows), cmd.idempotencyKey).None? && ParseTransactionType(cmd.kind).Some?
          && (faults.scanFails || !Admissible(cmd.amount, cmd.description, cmd.idempotencyKey) || faults.saveFails))
  {
    if faults.lookupFails {
      return Failure(CreateFailedError);
    }
    var existingTransaction := GetByIdempotencyKey(store.rows, cmd.idempotencyKey);
    if existingTransaction.Some? {
      var existing := existingTransaction.value;
      return Success(TransactionResponseDto(ToDto(existing), false, ReplayMessage(existing.id)));
    }
    var transactionType := ParseTransactionType(cmd.kind);
    if transactionType.None? {
      return Failure(InvalidTypeError);
    }
    if faults.scanFails {
      return Failure(CreateFailedError);
    }
    var potentialDuplicates := FindPotentialDuplicates(store.rows, QueryOf(cmd), now);
    r := SaveNew(store, bus, cmd, transactionType.value, potentialDuplicates, now, faults);
  }

  /**
   * Steps 4 to 6 of Handle, once the key is free and the type parsed: create the
   * aggregate under a fresh id, save it, answer with its DTO and the scan's warnings,
   * and publish the event.
   */
  method SaveNew(store: TransactionStore, bus: EventBus, cmd: CreateTransactionCommand, kind: TransactionType,
                 potentialDuplicates: seq<PotentialDuplicate>, now: Ticks, faults: CreateFaults)
    returns (r: Result<TransactionResponseDto, Error>)
    requires store.Valid()
    requires GetByIdempotencyKey(store.rows, cmd.idempotencyKey).None?
    requires ParseTransactionType(cmd.kind) == Some(kind)
    modifies store, bus
    ensures store.Valid()
    ensures r.Success? <==> Admissible(cmd.amount, cmd.description, cmd.idempotencyKey) && !faults.saveFails
    ensures r.Success? ==>
      var t := NewTransaction(cmd, old(store.nextId), now);
      && store.rows == old(store.rows) + [t]
      && r.value == TransactionResponseDto(CreatedDto(t, potentialDuplicates), true, CreatedMessage(|potentialDuplicates|))
      && bus.published == old(bus.published) + (if faults.publishFails then [] else [CreatedEvent(t, old(bus.nextEventId), now)])
    ensures r.Failure? ==> r == Failure(CreateFailedError) && store.rows == old(store.rows) && bus.published == old(bus.published)
  {
    var id := store.NewId();
    var created := Create(id, cmd.amount, kind, cmd.description, cmd.transactionDate,
                          cmd.idempotencyKey, cmd.reference, now);
    if created.Failure? {
      return Failure(CreateFailedError);
    }
    var transaction := created.value;
    ExistsIffFound(store.rows, cmd.idempotencyKey);
    var saved := store.Add(transaction, faults.saveFails);
    if !saved {
      return Failure(CreateFailedError);
    }
    var dto := CreatedDto(transaction, potentialDuplicates);
    PublishTransactionCreated(bus, transaction, now, faults.publishFails);
    r := Success(TransactionResponseDto(dto, true, CreatedMessage(|potentialDuplicates|)));
  }

  /**
   * A request with every dependency healthy: a stored key replays the stored transaction
   * and leaves the ledger alone; a success otherwise leaves the key stored, with the
   * answered transaction's id.
   */
  method HealthyRequest(store: TransactionStore, bus: EventBus, cmd: CreateTransactionCommand, now: Ticks)
    returns (r: Result<TransactionResponseDto, Error>)
    requires store.Valid()
    modifies store, bus
    ensures store.Valid()
    ensures GetByIdempotencyKey(old(store.rows), cmd.idempotencyKey).Some? ==>
      var existing := GetByIdempotencyKey(old(store.rows), cmd.idempotencyKey).value;
      && store.rows == old(store.rows)
      && r == Success(TransactionResponseDto(ToDto(existing), false, ReplayMessage(existing.id)))
    ensures r.Success? ==>
      && GetByIdempotencyKey(store.rows, cmd.idempotencyKey).Some?
      && r.value.transaction.id == GetByIdempotencyKey(store.rows, cmd.idempotencyKey).value.id
  {
    ghost var before, nextId := store.rows, store.nextId;
    r := Handle(store, bus, cmd, now, CreateFaults(false, false, false, false));
    if r.Success? && r.value.isNewTransaction {
      LookupAfterAppend(before, NewTransaction(cmd, nextId, now));
    }
  }

  /**
   * Two requests with the same idempotency key, one after the other: the second gets
   * the first one's transaction back and the ledger holds a single entry for the key.
   */
  method RepeatedRequest(store: TransactionStore, bus: EventBus, cmd: CreateTransactionCommand, now: Ticks, later: Ticks)
    returns (first: Result<TransactionResponseDto, Error>, second: Result<TransactionResponseDto, Error>)
    requires store.Valid()
    modifies store, bus
    ensures first.Success? ==> second.Success? && second.value.transaction.id == first.value.transaction.id
    ensures first.Success? ==> !second.value.isNewTransaction
    ensures first.Success? ==> CountWithKey(store.rows, cmd.idempotencyKey) == 1
  {
    first := HealthyRequest(store, bus, cmd, now);
    second := HealthyRequest(store, bus, cmd, later);
    if first.Success? {
      assert second.value.transaction.id == first.value.transaction.id;
      ExistsIffFound(store.rows, cmd.idempotencyKey);
      UniqueKeyCount(store.rows, cmd.idempotencyKey);
    }
  }
}
