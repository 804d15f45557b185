/**
 * The Transaction aggregate of the Transactions service: an immutable ledger
 * entry created through a factory that enforces the domain invariants on the
 * amount, the description and the idempotency key.
 */
module TransactionDomain {
  import opened Common
  import opened Text

  datatype TransactionType = Credit | Debit

  /** Enum.ToString(). */
  function TypeName(kind: TransactionType): string {
    match kind
    case Credit => "Credit"
    case Debit => "Debit"
  }

  /** The enum's underlying value, which is what the database column stores. */
  function TypeCode(kind: TransactionType): int {
    match kind
    case Credit => 1
    case Debit => 2
  }

  /**
   * Enum.TryParse(value, ignoreCase: true) restricted to member names: surrounding
   * white space is ignored and letters compare without regard to case.
   */
  function ParseTransactionType(value: string): (r: Option<TransactionType>)
    ensures r == Some(Credit) <==> EqualsIgnoreCase(Trim(value), "Credit")
    ensures r == Some(Debit) <==> EqualsIgnoreCase(Trim(value), "Debit")
  {
    var name := Trim(value);
    if EqualsIgnoreCase(name, "Credit") then Some(Credit)
    else if EqualsIgnoreCase(name, "Debit") then Some(Debit)
    else None
  }

  /** Parsing the name an enum member prints as gives back that member. */
  lemma ParseTypeName(kind: TransactionType)
    ensures ParseTransactionType(TypeName(kind)) == Some(kind)
  {
    var name := TypeName(kind);
    TrimOfTrimmed(name);
    assert EqualsIgnoreCase(name, name);
    if kind == Debit {
      assert |name| != |"Credit"|;
    }
  }

  datatype Transaction = Transaction(
    id: Guid,
    amount: real,
    kind: TransactionType,
    description: string,
    transactionDate: Ticks,
    idempotencyKey: string,
    reference: Option<string>,
    createdAt: Ticks)
  {
    /** The amount with the sign of its effect on the balance. */
    function SignedAmount(): (r: real)
      ensures r == amount || r == -amount
      ensures amount > 0.0 ==> (r > 0.0 <==> kind == Credit)
    {
      if kind == Credit then amount else -amount
    }
  }

  const MaxAmount: real := 999999999.99
  const MaxDescriptionLength: int := 500
  const MinIdempotencyKeyLength: int := 16
  const MaxIdempotencyKeyLength: int := 100

  const AmountNotPositive := "Transaction amount must be greater than zero"
  const AmountTooLarge := "Transaction amount exceeds maximum allowed value"
  const DescriptionRequired := "Transaction description is required"
  const DescriptionTooLong := "Transaction description cannot exceed 500 characters"
  const KeyRequired := "Idempotency key is required"
  const KeyTooShort := "Idempotency key must be at least 16 characters"
  const KeyTooLong := "Idempotency key cannot exceed 100 characters"

  function ValidateAmount(amount: real): Outcome<string> {
    if amount <= 0.0 then Fail(AmountNotPositive)
    else if amount > MaxAmount then Fail(AmountTooLarge)
    else Pass
  }

  function ValidateDescription(description: string): Outcome<string> {
    if IsBlank(description) then Fail(DescriptionRequired)
    else if |description| > MaxDescriptionLength then Fail(DescriptionTooLong)
    else Pass
  }

  function ValidateIdempotencyKey(key: string): Outcome<string> {
    if IsBlank(key) then Fail(KeyRequired)
    else if |key| < MinIdempotencyKeyLength then Fail(KeyTooShort)
    else if |key| > MaxIdempotencyKeyLength then Fail(KeyTooLong)
    else Pass
  }

  /** The domain invariants every Transaction satisfies. */
  predicate Admissible(amount: real, description: string, key: string) {
    0.0 < amount <= MaxAmount
    && !IsBlank(description) && |description| <= MaxDescriptionLength
    && !IsBlank(key) && MinIdempotencyKeyLength <= |key| <= MaxIdempotencyKeyLength
  }

  /**
   * Transaction.Create: checks the amount, then the description, then the key, and
   * reports the first rule broken; the new transaction gets the fresh id and is
   * stamped with the creation time.
   */
  function Create(id: Guid, amount: real, kind: TransactionType, description: string, transactionDate: Ticks,
                  idempotencyKey: string, reference: Option<string>, now: Ticks): (r: Result<Transaction, string>)
    ensures r.Success? <==> Admissible(amount, description, idempotencyKey)
    ensures r.Success? ==>
      r.value == Transaction(id, amount, kind, description, transactionDate, idempotencyKey, reference, now)
    ensures ValidateAmount(amount).Fail? ==> r == Failure(ValidateAmount(amount).error)
    ensures ValidateAmount(amount).Pass? && ValidateDescription(description).Fail? ==>
      r == Failure(ValidateDescription(description).error)
  {
    match ValidateAmount(amount)
    case Fail(e) => Failure(e)
    case Pass =>
      match ValidateDescription(description)
      case Fail(e) => Failure(e)
      case Pass =>
        match ValidateIdempotencyKey(idempotencyKey)
        case Fail(e) => Failure(e)
        case Pass => Success(Transaction(id, amount, kind, description, transactionDate, idempotencyKey, reference, now))
  }

  /** The boundary values are accepted: the maximum amount, a one-character description, keys of 16 and 100 characters. */
  lemma CreateAcceptsBoundaries(id: Guid, kind: TransactionType, date: Ticks, now: Ticks, key: string)
    requires |key| == MinIdempotencyKeyLength || |key| == MaxIdempotencyKeyLength
    requires forall i :: 0 <= i < |key| ==> key[i] == 'k'
    ensures Create(id, MaxAmount, kind, "x", date, key, None, now).Success?
  {
    assert !IsWhiteSpace("x"[0]);
    assert !IsWhiteSpace(key[0]);
  }

  /** One cent above the maximum, a 501-character description or a 15-character key is refused with its own message. */
  lemma CreateRejectsJustPastBoundaries(id: Guid, kind: TransactionType, date: Ticks, now: Ticks, text: string, key: string)
    requires |text| == MaxDescriptionLength + 1 && forall i :: 0 <= i < |text| ==> text[i] == 'x'
    requires |key| == MinIdempotencyKeyLength - 1 && forall i :: 0 <= i < |key| ==> key[i] == 'k'
    ensures Create(id, MaxAmount + 0.01, kind, "x", date, "kkkkkkkkkkkkkkkk", None, now) == Failure(AmountTooLarge)
    ensures Create(id, 1.0, kind, text, date, "kkkkkkkkkkkkkkkk", None, now) == Failure(DescriptionTooLong)
    ensures Create(id, 1.0, kind, "x", date, key, None, now) == Failure(KeyTooShort)
  {
    assert !IsWhiteSpace("x"[0]);
    assert !IsWhiteSpace("kkkkkkkkkkkkkkkk"[0]);
    assert !IsWhiteSpace(text[0]);
    assert !IsWhiteSpace(key[0]);
  }
}
