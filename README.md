# CashFlow core, modelled in Dafny

CashFlow is split into two services that talk over a message broker.

- The **Transactions** service records debits and credits in a ledger. It does the following:
  - validates each request field by field;
  - makes creation idempotent through a mandatory idempotency key;
  - warns about likely duplicates, scoring stored transactions from the surrounding days with five weighted rules, one of them a Levenshtein similarity of the descriptions;
  - publishes a `TransactionCreated` event.
- The **Consolidation** service keeps one row of daily totals per day: credits, debits, balance and transaction count. It does the following:
  - consumes the events under a retry policy of three retries after 2, 4 and 8 seconds;
  - folds each event into the day's row and invalidates the day's cache entry;
  - answers per-day reads through a read-through cache, and date-range reports;
  - lets an administrator rebuild a day from the ledger.

How the model represents the system:

- **Amounts** (C# `decimal`) are `real`.
- **Times** are `int` ticks. `DayOf` and `DateOf` model `DateTime.Date`.
- **Guids** are `nat`, drawn from a counter in the store that owns them.
- **Tables** are a `seq<Transaction>` (the ledger, in insertion order) and a `map<int, ConsolidationRow>` keyed by day. They live in the classes `TransactionStore` and `ConsolidationStore`, which the handlers change in place.
- **The DailyConsolidation aggregate** is a class whose methods update its fields.
- **The distributed cache** is a class holding a map.
- **The broker channel** is a class that records its acknowledgements.
- **Faults.** Every call that can throw (a database read or save, a cache call, a publish) is driven by a boolean of the call's environment. For the consumer's retries and the administrator's replays there is one environment per attempt, `envs: nat -> ProcessEnvironment`.
- **Loops become methods.** The Levenshtein distance, the duplicate scan, the retry loop and the recalculation's replay loop are methods with loop invariants. Each is proved against a pure reference function (`EditDistance`, `Detect`, `Executions`, `AppliedAll`), and the properties of the source are proved about those functions.

## Model

| member | source | states |
|---|---|---|
| TransactionDomain.ParseTransactionType | src/Services/Transactions/CashFlow.Transactions.Application/Commands/CreateTransaction/CreateTransactionCommandHandler.cs:85-89 | The ignore-case enum parse yields Credit exactly when the trimmed text equals "Credit" ignoring case, and likewise for Debit. |
| TransactionDomain.ParseTypeName | src/Services/Transactions/CashFlow.Transactions.Domain/Enums/TransactionType.cs:6-17 | Parsing the name a member prints as gives back that member. |
| TransactionDomain.Transaction.SignedAmount | src/Services/Transactions/CashFlow.Transactions.Domain/Entities/Transaction.cs:83-86 | The signed amount is ±amount; for a positive amount it is positive exactly for a credit. |
| TransactionDomain.Create | src/Services/Transactions/CashFlow.Transactions.Domain/Entities/Transaction.cs:57-130 | Creation succeeds iff 0 < amount <= 999999999.99, the description is non-blank and at most 500 characters, and the key is non-blank with 16 to 100 characters. On success every field is carried over and the transaction is stamped with the creation time. Otherwise the amount's error wins over the description's. |
| TransactionDomain.CreateAcceptsBoundaries | src/Services/Transactions/CashFlow.Transactions.Domain/Entities/Transaction.cs:88-130 | The maximum amount, a one-character description and keys of exactly 16 and 100 characters are accepted. |
| TransactionDomain.CreateRejectsJustPastBoundaries | src/Services/Transactions/CashFlow.Transactions.Domain/Entities/Transaction.cs:88-130 | One cent over the maximum, a 501-character description and a 15-character key are each refused with their own message. |
| TransactionContracts.ToDto | src/Services/Transactions/CashFlow.Transactions.Application/Mappings/TransactionMappingProfile.cs:14-16 | The DTO copies every field, carries the type by its name, and has no duplicate warnings. |
| TransactionContracts.ToDtoTypeParses | src/Services/Transactions/CashFlow.Transactions.Application/Mappings/TransactionMappingProfile.cs:14-16 | The type name the DTO carries parses back to the transaction's type. |
| CreateTransactionValidation.ValidateEmptyIff | src/Services/Transactions/CashFlow.Transactions.Application/Commands/CreateTransaction/CreateTransactionCommandValidator.cs:11-65 | The validator reports no failure exactly when every field rule holds: amount, type, description, date window of [now − 10 years, now + 1 day], key and reference. The key rule is the one as written, so a key with a final newline passes it. |
| CreateTransactionValidation.FailuresNameProperties | src/Services/Transactions/CashFlow.Transactions.Application/Commands/CreateTransaction/CreateTransactionCommandValidator.cs:14-64 | Every failure names one of the six request properties. |
| CreateTransactionValidation.ValidRequestIsAdmissible | src/Services/Transactions/CashFlow.Transactions.Application/Commands/CreateTransaction/CreateTransactionCommandValidator.cs:14-58 | A request the validator accepts passes the entity's own invariants, and its type parses. |
| CreateTransactionValidation.TypeCaseSensitivity | src/Services/Transactions/CashFlow.Transactions.Application/Commands/CreateTransaction/CreateTransactionCommandValidator.cs:23-27 | The validator refuses "credit", which the handler's parser accepts. It also refuses "CREDIT", "Credito" and "". |
| CreateTransactionValidation.Round2FixedIff | src/Services/Transactions/CashFlow.Transactions.Application/Commands/CreateTransaction/CreateTransactionCommandValidator.cs:19-20 | amount == Math.Round(amount, 2) holds exactly for whole numbers of cents. |
| CreateTransactionValidation.ValidateAcceptsTrailingNewlineKey | src/Services/Transactions/CashFlow.Transactions.Application/Commands/CreateTransaction/CreateTransactionCommandValidator.cs:50-58 | A request whose other fields are valid and whose key is "aaaaaaaaaaaaaaa\n" gets no failure from the validator, although the corrected pattern refuses that key. |
| CreateTransactionValidation.TrailingNewlineKeyAccepted | src/Services/Transactions/CashFlow.Transactions.Application/Commands/CreateTransaction/CreateTransactionCommandValidator.cs:50-58 | The key rules as written accept "aaaaaaaaaaaaaaa\n", a key ending in a newline. |
| CreateTransactionValidation.KeyPatternCorrection | src/Services/Transactions/CashFlow.Transactions.Application/Commands/CreateTransaction/CreateTransactionCommandValidator.cs:57-58 | The corrected key pattern accepts a subset of what the written pattern accepts. The two differ only on keys ending in a newline. |
| Similarity.CalculateLevenshteinDistance | src/Services/Transactions/CashFlow.Transactions.Domain/Services/TransactionDeduplicationService.cs:133-166 | The two-row Wagner-Fischer loop returns the edit distance. |
| Similarity.EditDistanceAtMostLonger | src/Services/Transactions/CashFlow.Transactions.Domain/Services/TransactionDeduplicationService.cs:119-125 | The distance never exceeds the longer length, so the similarity is at least 0. |
| Similarity.EditDistanceAtLeastLengthGap | src/Services/Transactions/CashFlow.Transactions.Domain/Services/TransactionDeduplicationService.cs:133-166 | The distance is at least the difference in lengths. |
| Similarity.EditDistanceZeroIffEqual | src/Services/Transactions/CashFlow.Transactions.Domain/Services/TransactionDeduplicationService.cs:116-119 | The distance is 0 exactly for equal strings. |
| Similarity.EditDistanceSymmetric | src/Services/Transactions/CashFlow.Transactions.Domain/Services/TransactionDeduplicationService.cs:133-166 | The distance does not depend on argument order. |
| Similarity.CalculateDescriptionSimilarity | src/Services/Transactions/CashFlow.Transactions.Domain/Services/TransactionDeduplicationService.cs:107-127 | The method's result is the similarity percentage defined by the reference function `DescriptionSimilarity`, which lies in 0..100. |
| Similarity.DescriptionSimilaritySymmetric | src/Services/Transactions/CashFlow.Transactions.Domain/Services/TransactionDeduplicationService.cs:107-127 | The similarity does not depend on argument order. |
| Similarity.FullMatchWhenNormalisedEqual | src/Services/Transactions/CashFlow.Transactions.Domain/Services/TransactionDeduplicationService.cs:112-117 | Non-empty descriptions that are equal after trimming and lower-casing score 100. |
| Similarity.BlankDescriptionsMatchFully | src/Services/Transactions/CashFlow.Transactions.Domain/Services/TransactionDeduplicationService.cs:109-123 | Two non-empty, all-white-space descriptions score 100. |
| Similarity.EmptyDescriptionScoresZero | src/Services/Transactions/CashFlow.Transactions.Domain/Services/TransactionDeduplicationService.cs:109-110 | A missing or empty description scores 0 against anything, on either side. |
| Similarity.BlankAgainstTextIsZero | src/Services/Transactions/CashFlow.Transactions.Domain/Services/TransactionDeduplicationService.cs:112-126 | A non-empty description made only of white space scores 0 against one that has text. |
| Similarity.SimilarAtThresholdIff | src/Services/Transactions/CashFlow.Transactions.Domain/Services/TransactionDeduplicationService.cs:66-67 | For different normalised texts, the similarity reaches 80 exactly when 200·distance <= 41·longer length. |
| Similarity.FullMatchIffEqualWhenShort | src/Services/Transactions/CashFlow.Transactions.Domain/Services/TransactionDeduplicationService.cs:116-126 | For normalised texts shorter than 200 characters, the similarity is 100 exactly when the normalised texts are equal. |
| Similarity.RoundHalfEvenAtLeast80 | src/Services/Transactions/CashFlow.Transactions.Domain/Services/TransactionDeduplicationService.cs:126 | Math.Round (half to even) gives at least 80 exactly from 79.5 upward. |
| Deduplication.ScoreByGroups | src/Services/Transactions/CashFlow.Transactions.Domain/Services/TransactionDeduplicationService.cs:44-80 | The score is 40 for the same amount and type, plus 60 if created within 5 minutes or else 35 if on the same day; plus 30 for a similar description; plus 50 for the same reference. |
| Deduplication.ScoreBounds | src/Services/Transactions/CashFlow.Transactions.Domain/Services/TransactionDeduplicationService.cs:42-80 | The score lies in 0..180. |
| Deduplication.ReportedIff | src/Services/Transactions/CashFlow.Transactions.Domain/Services/TransactionDeduplicationService.cs:82-94 | A candidate reaches 70 exactly when either of two things holds. One: the amount and type match and a further rule fires. Two: a similar description and the same reference both hold. |
| Deduplication.TimingRulesNeedAmountRule | src/Services/Transactions/CashFlow.Transactions.Domain/Services/TransactionDeduplicationService.cs:44-63 | The 5-minute and same-day reasons appear only with the amount-and-type reason, and never together. |
| Deduplication.FlagWith | src/Services/Transactions/CashFlow.Transactions.Domain/Services/TransactionDeduplicationService.cs:82-94 | A reported duplicate carries a score in 70..180. |
| Deduplication.AssessCandidate | src/Services/Transactions/CashFlow.Transactions.Domain/Services/TransactionDeduplicationService.cs:41-80 | The imperative scoring of one candidate yields the total weight and the texts, in order, of the rules that hold. |
| Deduplication.FindPotentialDuplicates | src/Services/Transactions/CashFlow.Transactions.Domain/Services/TransactionDeduplicationService.cs:20-101 | The loop over the ±1-day window returns the report `Detect` defines. Every score in it lies in 70..180, and it is ordered by score, highest first. |
| Deduplication.DetectContents | src/Services/Transactions/CashFlow.Transactions.Domain/Services/TransactionDeduplicationService.cs:30-100 | A duplicate is reported exactly for a stored transaction from the day before to the day after that reaches the threshold. The report is ordered by score, and ties keep the window's order. |
| Deduplication.DetectReportsOnlyReachingThreshold | src/Services/Transactions/CashFlow.Transactions.Domain/Services/TransactionDeduplicationService.cs:82-100 | Every reported score lies in 70..180. |
| Deduplication.SearchWindowMembers | src/Services/Transactions/CashFlow.Transactions.Domain/Services/TransactionDeduplicationService.cs:30-36 | The window holds exactly the stored transactions dated from the day before to the day after the request's date. |
| Sorting.SortByKeyPermutes | src/Services/Transactions/CashFlow.Transactions.Domain/Services/TransactionDeduplicationService.cs:98-100 | The stable sort returns a permutation of its input. |
| Sorting.SortByKeyOfSorted | src/Services/Transactions/CashFlow.Transactions.Domain/Services/TransactionDeduplicationService.cs:98-100 | An input already ordered by the key comes back unchanged. |
| Sorting.SortByKeySorted | src/Services/Transactions/CashFlow.Transactions.Domain/Services/TransactionDeduplicationService.cs:98-100 | The stable sort's output is ordered by the key. |
| Sorting.SortByKeyStable | src/Services/Transactions/CashFlow.Transactions.Domain/Services/TransactionDeduplicationService.cs:98-100 | Elements with equal keys keep their input order, as LINQ's OrderBy does. |
| TransactionRepository.GetById | src/Services/Transactions/CashFlow.Transactions.Infrastructure/Repositories/TransactionRepository.cs:20-25 | The lookup finds a stored transaction with that id, or none exists. |
| TransactionRepository.GetByIdAfterAppend | src/Services/Transactions/CashFlow.Transactions.Infrastructure/Repositories/TransactionRepository.cs:20-25 | Appending a transaction does not change what an existing id finds. |
| TransactionRepository.GetByIdempotencyKey | src/Services/Transactions/CashFlow.Transactions.Infrastructure/Repositories/TransactionRepository.cs:27-32 | The lookup finds a stored transaction with that exact key, or none exists. |
| TransactionRepository.LookupAfterAppend | src/Services/Transactions/CashFlow.Transactions.Infrastructure/Repositories/TransactionRepository.cs:27-32 | After a transaction with a free key is appended, the key finds it. |
| TransactionRepository.ExistsIffFound | src/Services/Transactions/CashFlow.Transactions.Infrastructure/Repositories/TransactionRepository.cs:78-83 | The existence check agrees with the lookup. |
| TransactionRepository.GetByDateRangeContents | src/Services/Transactions/CashFlow.Transactions.Infrastructure/Repositories/TransactionRepository.cs:34-47 | A transaction is returned exactly when its day lies between the start and end days. The result is ordered by transaction date. |
| TransactionRepository.CountMatchesListing | src/Services/Transactions/CashFlow.Transactions.Infrastructure/Repositories/TransactionRepository.cs:49-76 | The day's count equals the length of the day's listing. The listing holds exactly that day's transactions, ordered by creation time. |
| TransactionRepository.UniqueKeyCount | src/Services/Transactions/CashFlow.Transactions.Infrastructure/Persistence/Configurations/TransactionConfiguration.cs:62-63 | Under the unique index, a stored key occurs exactly once. |
| TransactionRepository.TransactionStore.Add | src/Services/Transactions/CashFlow.Transactions.Infrastructure/Repositories/TransactionRepository.cs:63-66 | Add then save appends the row, unless the save fails or the key or id is taken; the unique indexes still hold. |
| CreateTransaction.CreatedDto | src/Services/Transactions/CashFlow.Transactions.Application/Commands/CreateTransaction/CreateTransactionCommandHandler.cs:126-146 | Warnings are attached exactly when duplicates were found, and they are those duplicates; the rest is the plain mapping. |
| CreateTransaction.PublishTransactionCreated | src/Services/Transactions/CashFlow.Transactions.Application/Commands/CreateTransaction/CreateTransactionCommandHandler.cs:171-195 | The event (id, amount, type name, date) is appended to the bus unless publishing throws; a publishing failure is swallowed. |
| CreateTransaction.Handle | src/Services/Transactions/CashFlow.Transactions.Application/Commands/CreateTransaction/CreateTransactionCommandHandler.cs:46-169 | See the note after the table. |
| CreateTransaction.SaveNew | src/Services/Transactions/CashFlow.Transactions.Application/Commands/CreateTransaction/CreateTransactionCommandHandler.cs:108-169 | Once the key is free and the type parsed, the save succeeds iff the entity invariants hold and the save does not throw. It then appends the new transaction, answers with its DTO, the scan's warnings and the matching message, and publishes the event. Otherwise it answers CreateFailed and changes nothing. |
| CreateTransaction.HealthyRequest | src/Services/Transactions/CashFlow.Transactions.Application/Commands/CreateTransaction/CreateTransactionCommandHandler.cs:46-82 | With every dependency healthy, a stored key replays the stored transaction and leaves the ledger alone. Any success leaves the key stored under the answered transaction's id. |
| CreateTransaction.RepeatedRequest | src/Services/Transactions/CashFlow.Transactions.Application/Commands/CreateTransaction/CreateTransactionCommandHandler.cs:59-82 | Sending a successful request again returns the same transaction as not new, and the key is stored once. |
| GetTransactionById.Handle | src/Services/Transactions/CashFlow.Transactions.Application/Queries/GetTransactionById/GetTransactionByIdQueryHandler.cs:35-82 | Each case gives its own answer and cache change: cache hit, cache failure, not found, read failure, set failure, or answer and cache it. A coherent cache stays coherent, and through it the answer equals the ledger's. |
| GetTransactionById.CoherentAfterAppend | src/Services/Transactions/CashFlow.Transactions.Application/Queries/GetTransactionById/GetTransactionByIdQueryHandler.cs:42-72 | Creating transactions never makes a cached transaction stale. |
| DailyConsolidationDomain.DailyConsolidation.Create | src/Services/Consolidation/CashFlow.Consolidation.Domain/Entities/DailyConsolidation.cs:46-55 | A new day row has zero totals, the date truncated to its day, and both timestamps set to now. |
| DailyConsolidationDomain.DailyConsolidation.AddCredit | src/Services/Consolidation/CashFlow.Consolidation.Domain/Entities/DailyConsolidation.cs:60-68 | A negative amount is refused and leaves the row unchanged. Otherwise credits and balance grow by the amount, the count by one, and LastUpdated becomes now. |
| DailyConsolidationDomain.DailyConsolidation.AddDebit | src/Services/Consolidation/CashFlow.Consolidation.Domain/Entities/DailyConsolidation.cs:73-81 | A negative amount is refused and leaves the row unchanged. Otherwise debits grow and the balance shrinks by the amount, and the count grows by one. |
| DailyConsolidationDomain.DailyConsolidation.Recalculate | src/Services/Consolidation/CashFlow.Consolidation.Domain/Entities/DailyConsolidation.cs:86-101 | Negative sums or count are refused. Otherwise the totals are replaced and the balance becomes credits − debits. |
| DailyConsolidationDomain.AppliedAllClosedForm | src/Services/Consolidation/CashFlow.Consolidation.Domain/Entities/DailyConsolidation.cs:60-81 | Folding a sequence of credits and debits adds the credit sum, the debit sum, their difference and the accepted count. |
| DailyConsolidationDomain.AppliedKeepsBalanced | src/Services/Consolidation/CashFlow.Consolidation.Domain/Entities/DailyConsolidation.cs:60-81 | Each credit or debit keeps balance == credits − debits. |
| DailyConsolidationDomain.AppliedFromZero | src/Services/Consolidation/CashFlow.Consolidation.Domain/Entities/DailyConsolidation.cs:46-81 | From a fresh row, the fold is balanced and equals the sums and the accepted count. |
| DailyConsolidationDomain.AppliedAllBatchOrder | src/Services/Consolidation/CashFlow.Consolidation.Domain/Entities/DailyConsolidation.cs:60-81 | The final totals do not depend on the order of two batches of events. |
| DailyConsolidationDomain.RecalculateMatchesReplay | src/Services/Consolidation/CashFlow.Consolidation.Domain/Entities/DailyConsolidation.cs:86-101 | Recalculating from a replay's own sums and count is accepted and gives the replay's totals. |
| DailyConsolidationDomain.NonNegativeSums | src/Services/Consolidation/CashFlow.Consolidation.Domain/Entities/DailyConsolidation.cs:103-109 | The accepted credits and debits sum to non-negative totals. |
| ConsolidationContracts.ToDto | src/Services/Consolidation/CashFlow.Consolidation.Application/Mappings/ConsolidationMappingProfile.cs:14 | The DTO copies id, date, totals, count and LastUpdated. |
| ConsolidationRepository.GetByDate | src/Services/Consolidation/CashFlow.Consolidation.Infrastructure/Repositories/DailyConsolidationRepository.cs:20-25 | The day's row is found exactly when the day is stored, and it carries the truncated date. |
| ConsolidationRepository.GetByDateRangeContents | src/Services/Consolidation/CashFlow.Consolidation.Infrastructure/Repositories/DailyConsolidationRepository.cs:27-40 | Every stored day between the two dates is returned, and only those. Dates strictly ascend, and the result is empty when start > end. |
| ConsolidationRepository.ConsolidationStore.Save | src/Services/Consolidation/CashFlow.Consolidation.Infrastructure/Repositories/DailyConsolidationRepository.cs:42-50 | Add (new day) or Update (existing day) then save writes the row unless the save fails or the unique date index refuses it. |
| ConsolidationRepository.ConsolidationStore.DeleteDay | src/Services/Consolidation/CashFlow.Consolidation.API/Controllers/AdminController.cs:99-107 | The SQL delete removes that day's row and nothing else. |
| ProcessTransaction.EntryOf | src/Services/Consolidation/CashFlow.Consolidation.Application/Commands/ProcessTransaction/ProcessTransactionCommandHandler.cs:56-68 | The type is a credit exactly when it equals "Credit" ignoring case, a debit likewise, and unrecognised otherwise. |
| ProcessTransaction.LoadOrCreate | src/Services/Consolidation/CashFlow.Consolidation.Application/Commands/ProcessTransaction/ProcessTransactionCommandHandler.cs:42-53 | The day's stored row is loaded, or a fresh zero row is created for the truncated date. |
| ProcessTransaction.Dispatch | src/Services/Consolidation/CashFlow.Consolidation.Application/Commands/ProcessTransaction/ProcessTransactionCommandHandler.cs:55-68 | The amount is applied iff the type is recognised and the amount is not negative. An unknown type gives InvalidType, and a negative amount gives ProcessFailed. |
| ProcessTransaction.Handle | src/Services/Consolidation/CashFlow.Consolidation.Application/Commands/ProcessTransaction/ProcessTransactionCommandHandler.cs:33-94 | See the note after the table. |
| ProcessTransaction.ProcessedTwiceCountsTwice | src/Services/Consolidation/CashFlow.Consolidation.Application/Commands/ProcessTransaction/ProcessTransactionCommandHandler.cs:42-76 | Processing the same command twice counts it twice and moves the balance twice; the handler does not deduplicate. |
| ProcessTransaction.CoherentAfterWrite | src/Services/Consolidation/CashFlow.Consolidation.Application/Commands/ProcessTransaction/ProcessTransactionCommandHandler.cs:76-79 | Writing a day's row and removing its cache key keeps the cache coherent. |
| ProcessTransaction.StaleWhenRemovalFails | src/Services/Consolidation/CashFlow.Consolidation.Application/Commands/ProcessTransaction/ProcessTransactionCommandHandler.cs:76-79 | If the save succeeds but the removal throws, a cached entry of that day is stale. |
| GetDailyConsolidation.StoredAnswer | src/Services/Consolidation/CashFlow.Consolidation.Application/Queries/GetDailyConsolidation/GetDailyConsolidationQueryHandler.cs:55-63 | A table read answers the day's DTO iff the day is stored, and otherwise NotFound for that date. |
| ReadAfterProcess.ProcessThenRead | src/Services/Consolidation/CashFlow.Consolidation.Application/Queries/GetDailyConsolidation/GetDailyConsolidationQueryHandler.cs:41-45 | After a successful processing, a query for any moment of the same day, made through a coherent cache, answers the updated row: one more transaction, and the amount added to credits or debits. The cache stays coherent. |
| GetDailyConsolidation.Handle | src/Services/Consolidation/CashFlow.Consolidation.Application/Queries/GetDailyConsolidation/GetDailyConsolidationQueryHandler.cs:35-84 | Each case gives its own answer and cache change: cache failure, hit, read failure, NotFound, set failure, or answer and cache. A coherent cache stays coherent, and through it the answer equals the table's. |
| GetConsolidationReport.ToDtos | src/Services/Consolidation/CashFlow.Consolidation.Application/Queries/GetConsolidationReport/GetConsolidationReportQueryHandler.cs:47 | The list mapping maps each row in order. |
| GetConsolidationReport.Report | src/Services/Consolidation/CashFlow.Consolidation.Application/Queries/GetConsolidationReport/GetConsolidationReportQueryHandler.cs:30-63 | InvalidDateRange exactly when start > end, comparing full timestamps; ReportFailed exactly when the range is valid and the read throws. |
| GetConsolidationReport.ReportContents | src/Services/Consolidation/CashFlow.Consolidation.Application/Queries/GetConsolidationReport/GetConsolidationReportQueryHandler.cs:36-55 | A valid range lists the DTO of every stored day within it and nothing else, in ascending date order; a range with no rows gives an empty list. |
| AdminRecalculation.StoredTypeText | src/Services/Consolidation/CashFlow.Consolidation.API/Controllers/AdminController.cs:84 | Stored code 1 reads as "Credit" and any other code as "Debit". |
| AdminRecalculation.StoredTypeTextIsName | src/Services/Consolidation/CashFlow.Consolidation.API/Controllers/AdminController.cs:84 | For the codes the Transactions service stores, the text read back is the type's own name. |
| AdminRecalculation.ReplayDispatch | src/Services/Consolidation/CashFlow.Consolidation.API/Controllers/AdminController.cs:113-123 | Every replayed ledger row is dispatched as its own credit or debit. |
| AdminRecalculation.FetchDay | src/Services/Consolidation/CashFlow.Consolidation.API/Controllers/AdminController.cs:58-88 | The fetch returns exactly the day's ledger rows, ordered by creation time; their number is the day's count. |
| AdminRecalculation.HealthyReplayIsFold | src/Services/Consolidation/CashFlow.Consolidation.API/Controllers/AdminController.cs:112-130 | With no read or save failures, folding the persisted replays gives the same totals as folding every fetched ledger entry. |
| AdminRecalculation.ReplayAll | src/Services/Consolidation/CashFlow.Consolidation.API/Controllers/AdminController.cs:112-130 | See the note after the table. |
| AdminRecalculation.Recalculate | src/Services/Consolidation/CashFlow.Consolidation.API/Controllers/AdminController.cs:45-148 | See the note after the table. |
| AdminRecalculation.HealthyRecalculation | src/Services/Consolidation/CashFlow.Consolidation.API/Controllers/AdminController.cs:92-137 | With healthy replays, the rebuilt day holds the ledger's credit sum, debit sum, their difference and the day's transaction count. |
| EventConsumer.Delays | src/Services/Consolidation/CashFlow.Consolidation.Worker/TransactionEventConsumer.cs:39-41 | The k waits are the delays of retries 1..k, each 2^n seconds. |
| EventConsumer.RetrySchedule | src/Services/Consolidation/CashFlow.Consolidation.Worker/TransactionEventConsumer.cs:37-50 | The schedule is 2, 4 and 8 seconds. |
| EventConsumer.ToCommand | src/Services/Consolidation/CashFlow.Consolidation.Worker/TransactionEventConsumer.cs:162-168 | The command carries the event's transaction id, amount, type and date. |
| EventConsumer.RedeliveryIsIndistinguishable | src/Services/Consolidation/CashFlow.Consolidation.Worker/TransactionEventConsumer.cs:162-168 | Events that differ only in event id and time give the same command, so republishing is not detected. |
| EventConsumer.ExecutionsFromStop | src/Services/Consolidation/CashFlow.Consolidation.Worker/TransactionEventConsumer.cs:37-41 | The policy stops at the first successful attempt, or after the third retry. |
| EventConsumer.ExecutionsCharacterised | src/Services/Consolidation/CashFlow.Consolidation.Worker/TransactionEventConsumer.cs:157-181 | Every execution before the last failed. The last one succeeded or was the fourth. |
| EventConsumer.AckedIffSomeAttemptSucceeds | src/Services/Consolidation/CashFlow.Consolidation.Worker/TransactionEventConsumer.cs:157-191 | The final attempt succeeds exactly when one of the four attempts would succeed. |
| EventConsumer.DoubleApplyAfterCacheFailure | src/Services/Consolidation/CashFlow.Consolidation.Worker/TransactionEventConsumer.cs:157-183 | Suppose the first attempt saves but its cache removal throws, and the retry succeeds. Then there are two executions, and the day's count rises by two. |
| EventConsumer.UnknownTypeIsRejected | src/Services/Consolidation/CashFlow.Consolidation.Worker/TransactionEventConsumer.cs:170-191 | An unrecognised type is attempted four times and then nacked. |
| EventConsumer.ExecuteWithRetry | src/Services/Consolidation/CashFlow.Consolidation.Worker/TransactionEventConsumer.cs:157-181 | See the note after the table. |
| EventConsumer.ProcessMessage | src/Services/Consolidation/CashFlow.Consolidation.Worker/TransactionEventConsumer.cs:136-193 | See the note after the table. |

Notes on the rows that say "See the note after the table":

- **CreateTransaction.Handle**
  - An already stored key returns the stored transaction as not new.
  - A new transaction is reported exactly when one is saved. It is appended, carries the scan's warnings and the matching message, and its event is published.
  - InvalidType is returned exactly when the key is free and the type does not parse.
  - CreateFailed is returned exactly for a lookup failure, a scan failure, an entity-invariant failure or a save failure.
  - Otherwise nothing changes.
- **ProcessTransaction.Handle**
  - It succeeds iff the read, the dispatch, the save and the cache removal all succeed.
  - The error is InvalidType for an unknown type and ProcessFailed otherwise.
  - The day's row is updated iff it is saved.
  - The cache key is removed iff the call succeeds.
  - A coherent cache stays coherent unless the removal fails after the save.
- **AdminRecalculation.ReplayAll**: after the loop, the day's totals are the fold of the entries the replays persisted. The day has a row exactly when it had one before or some replay saved. Other days are unchanged, and the cache loses at most the day's key.
- **AdminRecalculation.Recalculate**
  - NotConfigured exactly when the connection string is empty.
  - RecalculationFailed exactly when the fetch, the lookup or the delete (of an existing row) throws. Then nothing changes.
  - Otherwise Ok with the truncated date and the number fetched. The day's totals become the fold of the persisted replays, and other days are unchanged.
  - The old row is deleted: after Ok the day has a row exactly when some replay saved one, so a day where nothing persisted reads as NotFound.
- **EventConsumer.ExecuteWithRetry**
  - The loop makes exactly the number of executions the policy specifies.
  - It succeeds as the last attempt does, and waits the schedule's delays.
  - The day's totals fold every persisted attempt.
- **EventConsumer.ProcessMessage**
  - A malformed or null payload is nacked without requeue, and nothing changes.
  - An event is acked iff its last attempt succeeds, and nacked without requeue otherwise.
  - The waits are the retry schedule.
  - The day's totals fold the persisted attempts, and other days are unchanged.

## Left out

- **I/O, concurrency, caching details and time**
  - Asynchrony, cancellation tokens, logging, dependency injection, HTTP and MediatR plumbing are left out. The handlers are called directly.
  - Concurrent deliveries (prefetch 10) and concurrent requests are not modelled. Each operation runs alone.
  - Cache expiry (5 and 10 minutes) is not modelled; entries stay until removed. JSON serialisation of cached values is taken as lossless, and an empty cached string is not distinguished from a missing entry.
  - The clock is a parameter. Each request reads one `now`, whereas the source reads `DateTime.UtcNow` separately for the validator, the entity and the event.
  - `DateTimeKind` conversions (`ToUniversalTime`, `SpecifyKind`) are left out. All times are taken as UTC ticks.
- **Numbers**
  - C# `decimal` is modelled as an exact `real`, so its 28-digit precision and overflow are not modelled.
  - Similarity.CalculateDescriptionSimilarity computes the percentage exactly, where the source uses `double`. The two can only differ next to a rounding boundary.
  - DailyConsolidationDomain.DailyConsolidation.AddCredit does not model the 32-bit wrap-around of `TransactionCount++`. The count is unbounded.
  - DailyConsolidationDomain.DailyConsolidation.AddDebit does not model the 32-bit wrap-around of `TransactionCount++`. The count is unbounded.
- **Text**
  - Case-insensitive comparison and `ToLowerInvariant` fold ASCII letters only. Unicode case folding is not modelled.
  - `Enum.TryParse` is modelled for member names only. Numeric strings and comma-separated flag lists are left out.
  - CreateTransactionValidation.Validate: null strings are modelled as empty strings. For a null field only whether the failure list is empty is kept. The list itself can differ: a null description fails "required" and "whitespace" in the source, and also "too short" in the model; a null key fails only "required" in the source, and also "too short" and the charset rule in the model.
  - Lengths are counted in characters (Unicode scalar values), whereas .NET's `Length` counts UTF-16 code units. A character outside the Basic Multilingual Plane counts 1 in the model and 2 in the source. This affects every length rule of the validator, Transaction.Create and the Levenshtein distance of descriptions.
  - The yyyy-MM-dd text of cache keys and messages is computed from a proleptic Gregorian calendar. Its round trip is not proved.
- **Consolidation service**
  - AdminRecalculation.Recalculate gives each replayed command its own unit of work. In the source the replays share the controller's scoped DbContext, which still tracks the row it loaded before the SQL delete.
  - AdminRecalculation.ReplayAll: a replay whose save fails leaves nothing behind in the model. In the source its changes stay tracked in the shared DbContext: a pending new row makes every later replay of the day fail on the unique date index, and a pending update is written by the next replay that saves. The model therefore promises the fold of the persisted entries only for replays that do not share a context.
  - AdminRecalculation.Recalculate: ticks are unbounded, so `DateTime` range overflow is not modelled. On 9999-12-31, `AddDays(1)` at AdminController.cs:66 throws and the source answers RecalculationFailed; the model fetches the day's transactions.
  - The exception text that a failed recalculation's BadRequest carries (`message = ex.Message`) is not modelled. A failure is reported as "Recalculation failed" alone.
  - EventConsumer.ProcessMessage does not model a null channel (`_channel?.`). The channel always exists.
  - The connection and consumer set-up with its 10-second reconnect loop (`ExecuteAsync`, `InitializeRabbitMQ`) and `Dispose` are left out. They are broker I/O.
- **Transactions service**
  - GetTransactionsByDate and the HTTP controllers are not part of this model.
  - TransactionRepository.GetByDateRange and TransactionRepository.GetByDate return rows with equal sort keys in ledger order. SQL leaves the order of such rows unspecified, so the order of equally scored potential duplicates is the model's choice.

## Findings

| source | as written | input that shows it | evidently intended | confidence | as-written member | corrected member |
|---|---|---|---|---|---|---|
| src/Services/Transactions/CashFlow.Transactions.Application/Commands/CreateTransaction/CreateTransactionCommandValidator.cs:57 | `^[a-zA-Z0-9-_]+$` under .NET semantics, where `$` also matches before a final "\n" | the idempotency key "aaaaaaaaaaaaaaa\n" (15 letters and a newline) passes every key rule | only letters, digits, hyphens and underscores, as the rule's message says | not executed | CreateTransactionValidation.ValidateAcceptsTrailingNewlineKey | CreateTransactionValidation.KeyPatternCorrection |
