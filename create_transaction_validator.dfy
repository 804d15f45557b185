/**
 * CreateTransactionCommandValidator: the request rules checked before the
 * handler runs. Every rule of a property is evaluated, so one property can
 * report several failures; the result lists them property by property in
 * declaration order. The validator reads the clock once, when it is built for
 * the request; that instant is the parameter now.
 */
module CreateTransactionValidation {
  import opened Common
  import opened Text
  import opened TransactionDomain
  import opened TransactionContracts

  datatype ValidationFailure = ValidationFailure(propertyName: string, errorMessage: string)

  const AmountNotPositive := "Amount must be greater than zero"
  const AmountTooLarge := "Amount exceeds maximum allowed value"
  const AmountTooPrecise := "Amount cannot have more than 2 decimal places"
  const TypeRequired := "Transaction type is required"
  const TypeNotExact := "Transaction type must be either 'Credit' or 'Debit' (case-sensitive)"
  const DescriptionRequired := "Description is required"
  const DescriptionTooShort := "Description must be at least 3 characters"
  const DescriptionTooLong := "Description cannot exceed 500 characters"
  const DescriptionWhiteSpace := "Description cannot be only whitespace"
  const DateRequired := "Transaction date is required"
  const DateInFuture := "Transaction date cannot be in the future"
  const DateTooOld := "Transaction date cannot be more than 10 years in the past"
  const KeyRequired := "Idempotency key is required to prevent duplicate transactions"
  const KeyTooShort := "Idempotency key must be at least 16 characters for security"
  const KeyTooLong := "Idempotency key cannot exceed 100 characters"
  const KeyCharset := "Idempotency key can only contain alphanumeric characters, hyphens, and underscores"
  const ReferenceTooLong := "Reference cannot exceed 100 characters"

  const MinDescriptionLength: int := 3
  const MaxReferenceLength: int := 100

  /** Math.Round(amount, 2): the nearest multiple of 0.01, halves to the even neighbour. */
  function Round2(amount: real): real {
    RoundHalfEven(amount * 100.0) as real / 100.0
  }

  /** A whole number of cents. */
  predicate HasAtMostTwoDecimals(amount: real) {
    (amount * 100.0).Floor as real == amount * 100.0
  }

  /** The rule amount == Math.Round(amount, 2) holds exactly for whole numbers of cents. */
  lemma Round2FixedIff(amount: real)
    ensures Round2(amount) == amount <==> HasAtMostTwoDecimals(amount)
  {
    var scaled := amount * 100.0;
    if HasAtMostTwoDecimals(amount) {
      assert RoundHalfEven(scaled) == scaled.Floor;
    }
    if Round2(amount) == amount {
      assert RoundHalfEven(scaled) as real == scaled;
    }
  }

  /** The letters, digits, '-' and '_' of the class [a-zA-Z0-9-_]. */
  predicate IsKeyChar(c: char) {
    'a' <= c <= 'z' || 'A' <= c <= 'Z' || '0' <= c <= '9' || c == '-' || c == '_'
  }

  predicate AllKeyChars(s: string) {
    forall i :: 0 <= i < |s| ==> IsKeyChar(s[i])
  }

  /**
   * Regex.IsMatch(key, "^[a-zA-Z0-9-_]+$") as .NET evaluates it: without the Multiline
   * option, $ also matches just before a final '\n', so a key may end in one newline.
   */
  predicate MatchesKeyPatternAsWritten(key: string) {
    (key != [] && AllKeyChars(key))
    || (|key| >= 2 && key[|key| - 1] == '\n' && AllKeyChars(key[..|key| - 1]))
  }

  /** The key pattern as its message describes it: one or more letters, digits, hyphens and underscores. */
  predicate MatchesKeyPattern(key: string) {
    key != [] && AllKeyChars(key)
  }

  /** A key of sixteen characters ending in a newline passes every key rule as written. */
  lemma TrailingNewlineKeyAccepted()
    ensures var key := "aaaaaaaaaaaaaaa\n";
      MatchesKeyPatternAsWritten(key) && !MatchesKeyPattern(key)
      && !IsBlank(key) && MinIdempotencyKeyLength <= |key| <= MaxIdempotencyKeyLength
  {
    var key := "aaaaaaaaaaaaaaa\n";
    assert key[..|key| - 1] == "aaaaaaaaaaaaaaa";
    assert !IsKeyChar(key[15]);
    assert !IsWhiteSpace(key[0]);
  }

  /** The corrected pattern accepts a subset of what the written one accepts, and differs only on a final newline. */
  lemma KeyPatternCorrection(key: string)
    ensures MatchesKeyPattern(key) ==> MatchesKeyPatternAsWritten(key)
    ensures MatchesKeyPatternAsWritten(key) && !MatchesKeyPattern(key) ==> key[|key| - 1] == '\n'
  {
  }

  function AmountErrors(amount: real): seq<string> {
    (if amount > 0.0 then [] else [AmountNotPositive])
    + (if amount <= MaxAmount then [] else [AmountTooLarge])
    + (if amount == Round2(amount) then [] else [AmountTooPrecise])
  }

  function TypeErrors(kind: string): seq<string> {
    (if IsBlank(kind) then [TypeRequired] else [])
    + (if kind == "Credit" || kind == "Debit" then [] else [TypeNotExact])
  }

  function DescriptionErrors(description: string): seq<string> {
    (if IsBlank(description) then [DescriptionRequired] else [])
    + (if |description| >= MinDescriptionLength then [] else [DescriptionTooShort])
    + (if |description| <= MaxDescriptionLength then [] else [DescriptionTooLong])
    + (if IsBlank(description) then [DescriptionWhiteSpace] else [])
  }

  /** NotEmpty on a DateTime refuses default(DateTime), tick 0. The bounds are read from the clock. */
  function DateErrors(transactionDate: Ticks, now: Ticks): seq<string> {
    (if transactionDate == 0 then [DateRequired] else [])
    + (if transactionDate <= now + TicksPerDay then [] else [DateInFuture])
    + (if transactionDate >= AddYears(now, -10) then [] else [DateTooOld])
  }

  function KeyErrors(key: string): seq<string> {
    (if IsBlank(key) then [KeyRequired] else [])
    + (if |key| >= MinIdempotencyKeyLength then [] else [KeyTooShort])
    + (if |key| <= MaxIdempotencyKeyLength then [] else [KeyTooLong])
    + (if MatchesKeyPatternAsWritten(key) then [] else [KeyCharset])
  }

  /** The length rule applies only to a non-empty reference. */
  function ReferenceErrors(reference: Option<string>): seq<string> {
    if reference.Some? && reference.value != [] && |reference.value| > MaxReferenceLength then [ReferenceTooLong] else []
  }

  function Failures(propertyName: string, messages: seq<string>): (r: seq<ValidationFailure>)
    ensures |r| == |messages|
    ensures forall i :: 0 <= i < |r| ==> r[i] == ValidationFailure(propertyName, messages[i])
  {
    seq(|messages|, i requires 0 <= i < |messages| => ValidationFailure(propertyName, messages[i]))
  }

  /** Validate(command): every failure, property by property. */
  function Validate(cmd: CreateTransactionCommand, now: Ticks): seq<ValidationFailure> {
    Failures("Amount", AmountErrors(cmd.amount))
    + Failures("Type", TypeErrors(cmd.kind))
    + Failures("Description", DescriptionErrors(cmd.description))
    + Failures("TransactionDate", DateErrors(cmd.transactionDate, now))
    + Failures("IdempotencyKey", KeyErrors(cmd.idempotencyKey))
    + Failures("Reference", ReferenceErrors(cmd.reference))
  }

  /** The rules stated positively, field by field. */
  predicate ValidAmount(amount: real) {
    0.0 < amount <= MaxAmount && HasAtMostTwoDecimals(amount)
  }

  predicate ValidType(kind: string) {
    kind == "Credit" || kind == "Debit"
  }

  predicate ValidDescription(description: string) {
    !IsBlank(description) && MinDescriptionLength <= |description| <= MaxDescriptionLength
  }

  predicate ValidDate(transactionDate: Ticks, now: Ticks) {
    transactionDate != 0 && AddYears(now, -10) <= transactionDate <= now + TicksPerDay
  }

  predicate ValidKey(key: string) {
    !IsBlank(key) && MinIdempotencyKeyLength <= |key| <= MaxIdempotencyKeyLength && MatchesKeyPatternAsWritten(key)
  }

  predicate ValidReference(reference: Option<string>) {
    reference.None? || |reference.value| <= MaxReferenceLength
  }

  predicate IsValid(cmd: CreateTransactionCommand, now: Ticks) {
    ValidAmount(cmd.amount) && ValidType(cmd.kind) && ValidDescription(cmd.description)
    && ValidDate(cmd.transactionDate, now) && ValidKey(cmd.idempotencyKey) && ValidReference(cmd.reference)
  }

  /** The validator reports no failure exactly when every field rule holds. */
  lemma ValidateEmptyIff(cmd: CreateTransactionCommand, now: Ticks)
    ensures Validate(cmd, now) == [] <==> IsValid(cmd, now)
  {
    Round2FixedIff(cmd.amount);
    if ValidType(cmd.kind) {
      assert !IsWhiteSpace(cmd.kind[0]);
    }
  }

  /**
   * The validator as written lets a key ending in a newline through: with every other
   * field valid, it reports nothing, although the key breaks the rule's own message.
   */
  lemma ValidateAcceptsTrailingNewlineKey(cmd: CreateTransactionCommand, now: Ticks)
    requires cmd.idempotencyKey == "aaaaaaaaaaaaaaa\n"
    requires ValidAmount(cmd.amount) && ValidType(cmd.kind) && ValidDescription(cmd.description)
    requires ValidDate(cmd.transactionDate, now) && ValidReference(cmd.reference)
    ensures Validate(cmd, now) == []
    ensures !MatchesKeyPattern(cmd.idempotencyKey)
  {
    TrailingNewlineKeyAccepted();
    ValidateEmptyIff(cmd, now);
  }

  /** Every failure names one of the six properties of the request. */
  lemma FailuresNameProperties(cmd: CreateTransactionCommand, now: Ticks)
    ensures forall f :: f in Validate(cmd, now) ==>
      f.propertyName in ["Amount", "Type", "Description", "TransactionDate", "IdempotencyKey", "Reference"]
  {
    FailuresNamed("Amount", AmountErrors(cmd.amount));
    FailuresNamed("Type", TypeErrors(cmd.kind));
    FailuresNamed("Description", DescriptionErrors(cmd.description));
    FailuresNamed("TransactionDate", DateErrors(cmd.transactionDate, now));
    FailuresNamed("IdempotencyKey", KeyErrors(cmd.idempotencyKey));
    FailuresNamed("Reference", ReferenceErrors(cmd.reference));
  }

  /** Every failure of one group names that group's property. */
  lemma FailuresNamed(propertyName: string, messages: seq<string>)
    ensures forall f :: f in Failures(propertyName, messages) ==> f.propertyName == propertyName
  {
  }

  /**
   * A request the validator accepts passes the aggregate's amount, description and key
   * checks, and its type parses, so the handler can neither fail on the type nor on a
   * domain rule for it.
   */
  lemma ValidRequestIsAdmissible(cmd: CreateTransactionCommand, now: Ticks)
    requires IsValid(cmd, now)
    ensures Admissible(cmd.amount, cmd.description, cmd.idempotencyKey)
    ensures ParseTransactionType(cmd.kind).Some?
  {
    ParseTypeName(if cmd.kind == "Credit" then Credit else Debit);
  }

  /** The validator is case-sensitive where the handler's parser is not: "credit" parses but is refused. */
  lemma TypeCaseSensitivity()
    ensures ParseTransactionType("credit") == Some(Credit)
    ensures !ValidType("credit") && !ValidType("CREDIT") && !ValidType("Credito") && !ValidType("")
  {
    TrimOfTrimmed("credit");
  }
}
