/**
 * The data the Transactions application layer exchanges: the creation request,
 * the transaction DTO with its duplicate warnings, the creation response and
 * the integration event published to the Consolidation service.
 */
module TransactionContracts {
  import opened Common
  import opened TransactionDomain
  import opened Deduplication

  /** CreateTransactionCommand. The type is the raw text of the request; the reference is optional. */
  datatype CreateTransactionCommand = CreateTransactionCommand(
    amount: real,
    kind: string,
    description: string,
    transactionDate: Ticks,
    idempotencyKey: string,
    reference: Option<string>)

  /**
   * TransactionDto. A DuplicateWarningDto carries exactly the fields of a
   * PotentialDuplicate, so the warnings are kept as PotentialDuplicate values.
   */
  datatype TransactionDto = TransactionDto(
    id: Guid,
    amount: real,
    kind: string,
    description: string,
    transactionDate: Ticks,
    idempotencyKey: string,
    reference: Option<string>,
    createdAt: Ticks,
    potentialDuplicates: Option<seq<PotentialDuplicate>>)

  /** The AutoMapper profile: every field copied, the type by its name, no duplicate warnings. */
  function ToDto(t: Transaction): (r: TransactionDto)
    ensures r.id == t.id && r.amount == t.amount && r.description == t.description
    ensures r.transactionDate == t.transactionDate && r.idempotencyKey == t.idempotencyKey
    ensures r.reference == t.reference && r.createdAt == t.createdAt
    ensures r.kind == TypeName(t.kind)
    ensures r.potentialDuplicates.None?
  {
    TransactionDto(t.id, t.amount, TypeName(t.kind), t.description, t.transactionDate, t.idempotencyKey,
                   t.reference, t.createdAt, None)
  }

  /** The type name the DTO carries parses back to the transaction's type. */
  lemma ToDtoTypeParses(t: Transaction)
    ensures ParseTransactionType(ToDto(t).kind) == Some(t.kind)
  {
    ParseTypeName(t.kind);
  }

  datatype TransactionResponseDto = TransactionResponseDto(
    transaction: TransactionDto,
    isNewTransaction: bool,
    message: string)

  /** TransactionCreatedIntegrationEvent, as published on the event bus. */
  datatype TransactionCreatedEvent = TransactionCreatedEvent(
    eventId: Guid,
    occurredOn: Ticks,
    transactionId: Guid,
    amount: real,
    kind: string,
    transactionDate: Ticks)
}
