/**
 * The duplicate detector of the Transactions service. It scores every stored
 * transaction dated within one day of the incoming request against five rules,
 * reports those scoring at least 70 and orders them by score, highest first.
 * Detection only warns: it never blocks a creation.
 */
module Deduplication {
  import opened Common
  import opened Text
  import opened Sorting
  import opened Similarity
  import opened TransactionDomain
  import opened TransactionRepository

  /** The fields of the incoming request the detector compares against. The type is the raw request text. */
  datatype DuplicateQuery = DuplicateQuery(
    amount: real,
    kind: string,
    description: string,
    transactionDate: Ticks,
    reference: Option<string>)

  /** The rules that can fire, in the order they are checked. */
  datatype Reason =
    | SameAmountAndType
    | CreatedWithinFiveMinutes
    | SameTransactionDate
    | SimilarDescription(percent: int)
    | SameReferenceNumber

  function Weight(r: Reason): int {
    match r
    case SameAmountAndType => 40
    case CreatedWithinFiveMinutes => 60
    case SameTransactionDate => 35
    case SimilarDescription(_) => 30
    case SameReferenceNumber => 50
  }

  function ReasonText(r: Reason): string {
    match r
    case SameAmountAndType => "Same amount and type"
    case CreatedWithinFiveMinutes => "Created within 5 minutes"
    case SameTransactionDate => "Same transaction date"
    case SimilarDescription(p) => "Similar description (" + IntToString(p) + "% match)"
    case SameReferenceNumber => "Same reference number"
  }

  function TotalWeight(rs: seq<Reason>): int {
    if rs == [] then 0 else TotalWeight(rs[..|rs| - 1]) + Weight(rs[|rs| - 1])
  }

  function ReasonTexts(rs: seq<Reason>): seq<string> {
    if rs == [] then [] else ReasonTexts(rs[..|rs| - 1]) + [ReasonText(rs[|rs| - 1])]
  }

  const ReportThreshold: int := 70
  const SimilarityThreshold: int := 80
  const RecentWindow: int := 5 * TicksPerMinute

  /** A stored transaction the detector reports, with its score and the reasons joined by "; ". */
  datatype PotentialDuplicate = PotentialDuplicate(
    transactionId: Guid,
    amount: real,
    kind: string,
    description: string,
    transactionDate: Ticks,
    createdAt: Ticks,
    similarityScore: int,
    reason: string)

  /** Rule 1: equal amount, and the stored type's name equals the request's type text ignoring case. */
  predicate SameAmountAndKind(e: Transaction, q: DuplicateQuery) {
    e.amount == q.amount && EqualsIgnoreCase(TypeName(e.kind), q.kind)
  }

  /** Rule 2: the stored transaction was created at most five minutes from now, either side. */
  predicate CreatedRecently(e: Transaction, now: Ticks) {
    Abs(e.createdAt - now) <= RecentWindow
  }

  /** Rule 3: both transactions are dated on the same day. */
  predicate SameDay(e: Transaction, q: DuplicateQuery) {
    DayOf(e.transactionDate) == DayOf(q.transactionDate)
  }

  predicate HasText(r: Option<string>) {
    r.Some? && r.value != []
  }

  /** Rule 5: both references are present and non-empty and equal ignoring case. */
  predicate SameReference(e: Transaction, q: DuplicateQuery) {
    HasText(q.reference) && HasText(e.reference) && EqualsIgnoreCase(e.reference.value, q.reference.value)
  }

  /** Rules 1 to 3: rule 2 and rule 3 are only considered after rule 1, and rule 3 only when rule 2 fails. */
  function AmountRules(e: Transaction, q: DuplicateQuery, now: Ticks): seq<Reason> {
    if SameAmountAndKind(e, q) then
      [SameAmountAndType]
      + (if CreatedRecently(e, now) then [CreatedWithinFiveMinutes]
         else if SameDay(e, q) then [SameTransactionDate]
         else [])
    else []
  }

  /** Rule 4: descriptions at least 80% similar. */
  function DescriptionRules(similarity: int): seq<Reason> {
    if similarity >= SimilarityThreshold then [SimilarDescription(similarity)] else []
  }

  function ReferenceRules(e: Transaction, q: DuplicateQuery): seq<Reason> {
    if SameReference(e, q) then [SameReferenceNumber] else []
  }

  /** The rules a stored transaction matches, in checking order, given the descriptions' similarity. */
  function MatchedRules(e: Transaction, q: DuplicateQuery, now: Ticks, similarity: int): seq<Reason> {
    AmountRules(e, q, now) + DescriptionRules(similarity) + ReferenceRules(e, q)
  }

  lemma {:induction false} TotalWeightAppend(a: seq<Reason>, b: seq<Reason>)
    ensures TotalWeight(a + b) == TotalWeight(a) + TotalWeight(b)
  {
    if b == [] {
      assert a + b == a;
    } else {
      assert (a + b)[..|a + b| - 1] == a + b[..|b| - 1];
      TotalWeightAppend(a, b[..|b| - 1]);
    }
  }

  lemma {:induction false} ReasonTextsAppend(a: seq<Reason>, b: seq<Reason>)
    ensures ReasonTexts(a + b) == ReasonTexts(a) + ReasonTexts(b)
  {
    if b == [] {
      assert a + b == a;
    } else {
      assert (a + b)[..|a + b| - 1] == a + b[..|b| - 1];
      ReasonTextsAppend(a, b[..|b| - 1]);
    }
  }

  /** The score is the sum of the three groups of rules. */
  lemma ScoreByGroups(e: Transaction, q: DuplicateQuery, now: Ticks, similarity: int)
    ensures TotalWeight(MatchedRules(e, q, now, similarity))
      == (if SameAmountAndKind(e, q) then 40 + (if CreatedRecently(e, now) then 60 else if SameDay(e, q) then 35 else 0) else 0)
       + (if similarity >= SimilarityThreshold then 30 else 0)
       + (if SameReference(e, q) then 50 else 0)
  {
    var a, d, r := AmountRules(e, q, now), DescriptionRules(similarity), ReferenceRules(e, q);
    TotalWeightAppend(a + d, r);
    TotalWeightAppend(a, d);
    if SameAmountAndKind(e, q) {
      var timing := if CreatedRecently(e, now) then [CreatedWithinFiveMinutes] else if SameDay(e, q) then [SameTransactionDate] else [];
      TotalWeightAppend([SameAmountAndType], timing);
    }
  }

  /** The score lies between 0 and 180 (40 + 60 + 30 + 50). */
  lemma ScoreBounds(e: Transaction, q: DuplicateQuery, now: Ticks, similarity: int)
    ensures 0 <= TotalWeight(MatchedRules(e, q, now, similarity)) <= 180
  {
    ScoreByGroups(e, q, now, similarity);
  }

  /**
   * When a stored transaction is reported: with the same amount and type, any one further
   * rule suffices; without it, only a similar description together with the same reference does.
   */
  lemma ReportedIff(e: Transaction, q: DuplicateQuery, now: Ticks, similarity: int)
    ensures TotalWeight(MatchedRules(e, q, now, similarity)) >= ReportThreshold
      <==> ((SameAmountAndKind(e, q)
             && (CreatedRecently(e, now) || SameDay(e, q) || similarity >= SimilarityThreshold || SameReference(e, q)))
            || (similarity >= SimilarityThreshold && SameReference(e, q)))
  {
    ScoreByGroups(e, q, now, similarity);
  }

  /** Rule 2 never fires without rule 1, and rules 2 and 3 never fire together. */
  lemma TimingRulesNeedAmountRule(e: Transaction, q: DuplicateQuery, now: Ticks, similarity: int)
    ensures var rules := MatchedRules(e, q, now, similarity);
      (CreatedWithinFiveMinutes in rules ==> SameAmountAndType in rules)
      && (SameTransactionDate in rules ==> SameAmountAndType in rules)
      && !(CreatedWithinFiveMinutes in rules && SameTransactionDate in rules)
  {
    var d := DescriptionRules(similarity);
    var r := ReferenceRules(e, q);
    assert CreatedWithinFiveMinutes !in d + r && SameTransactionDate !in d + r;
    assert MatchedRules(e, q, now, similarity) == AmountRules(e, q, now) + (d + r);
  }

  /** What the detector reports for one stored transaction, if anything. */
  function Flag(e: Transaction, q: DuplicateQuery, now: Ticks): Option<PotentialDuplicate> {
    FlagWith(e, q, now, DescriptionSimilarity(e.description, q.description))
  }

  function FlagWith(e: Transaction, q: DuplicateQuery, now: Ticks, similarity: int): (r: Option<PotentialDuplicate>)
    ensures r.Some? ==> ReportThreshold <= r.value.similarityScore <= 180
  {
    ScoreBounds(e, q, now, similarity);
    var rules := MatchedRules(e, q, now, similarity);
    var score := TotalWeight(rules);
    if score >= ReportThreshold then
      Some(PotentialDuplicate(e.id, e.amount, TypeName(e.kind), e.description, e.transactionDate, e.createdAt,
                              score, Join("; ", ReasonTexts(rules))))
    else None
  }

  /** The reports for a list of candidates, in candidate order. */
  function FlagAll(candidates: seq<Transaction>, q: DuplicateQuery, now: Ticks): seq<PotentialDuplicate> {
    if candidates == [] then []
    else
      var last := candidates[|candidates| - 1];
      FlagAll(candidates[..|candidates| - 1], q, now) + (match Flag(last, q, now) case Some(d) => [d] case None => [])
  }

  /** OrderByDescending(d => d.SimilarityScore) as an ascending order on the negated score. */
  function ScoreKey(d: PotentialDuplicate): int {
    -d.similarityScore
  }

  /** The stored transactions dated from the day before to the day after the request's date. */
  function SearchWindow(rows: seq<Transaction>, date: Ticks): seq<Transaction> {
    GetByDateRange(rows, DateOf(date) - TicksPerDay, DateOf(date) + TicksPerDay)
  }

  /** FindPotentialDuplicatesAsync, as a function of the ledger, the request and the clock. */
  function Detect(rows: seq<Transaction>, q: DuplicateQuery, now: Ticks): seq<PotentialDuplicate> {
    SortByKey(FlagAll(SearchWindow(rows, q.transactionDate), q, now), ScoreKey)
  }

  /** The reason texts of the matched rules, group by group. */
  lemma ReasonTextsByGroups(e: Transaction, q: DuplicateQuery, now: Ticks, similarity: int)
    ensures ReasonTexts(MatchedRules(e, q, now, similarity))
      == ReasonTexts(AmountRules(e, q, now)) + ReasonTexts(DescriptionRules(similarity)) + ReasonTexts(ReferenceRules(e, q))
  {
    var a, d, r := AmountRules(e, q, now), DescriptionRules(similarity), ReferenceRules(e, q);
    ReasonTextsAppend(a + d, r);
    ReasonTextsAppend(a, d);
  }

  /** Appending one matched rule adds its weight to the score and its text to the reasons. */
  lemma AppendRule(rules: seq<Reason>, r: Reason)
    ensures TotalWeight(rules + [r]) == TotalWeight(rules) + Weight(r)
    ensures ReasonTexts(rules + [r]) == ReasonTexts(rules) + [ReasonText(r)]
  {
    assert (rules + [r])[..|rules|] == rules;
  }

  /** Scores one stored transaction rule by rule, collecting the reason texts as it goes. */
  method AssessCandidate(existing: Transaction, q: DuplicateQuery, now: Ticks) returns (similarityScore: int, reasons: seq<string>)
    ensures var rules := MatchedRules(existing, q, now, DescriptionSimilarity(existing.description, q.description));
      similarityScore == TotalWeight(rules) && reasons == ReasonTexts(rules)
  {
    similarityScore, reasons := AssessAmount(existing, q, now);
    var descriptionSimilarity := CalculateDescriptionSimilarity(existing.description, q.description);
    similarityScore, reasons := AssessDescription(descriptionSimilarity, similarityScore, reasons);
    similarityScore, reasons := AssessReference(existing, q, similarityScore, reasons);
    var a, d, r := AmountRules(existing, q, now), DescriptionRules(descriptionSimilarity), ReferenceRules(existing, q);
    TotalWeightAppend(a, d);
    TotalWeightAppend(a + d, r);
    ReasonTextsAppend(a, d);
    ReasonTextsAppend(a + d, r);
  }

  /** Rule 4 of AssessCandidate, on top of the score and reasons so far. */
  method AssessDescription(descriptionSimilarity: int, score: int, texts: seq<string>) returns (similarityScore: int, reasons: seq<string>)
    ensures similarityScore == score + TotalWeight(DescriptionRules(descriptionSimilarity))
    ensures reasons == texts + ReasonTexts(DescriptionRules(descriptionSimilarity))
  {
    similarityScore, reasons := score, texts;
    if descriptionSimilarity >= 80 {
      similarityScore := similarityScore + 30;
      var text := "Similar description (" + IntToString(descriptionSimilarity) + "% match)";
      assert text == ReasonText(SimilarDescription(descriptionSimilarity));
      reasons := reasons + [text];
      AppendRule([], SimilarDescription(descriptionSimilarity));
    } else {
      assert reasons == texts + [];
    }
  }

  /** Rule 5 of AssessCandidate, on top of the score and reasons so far. */
  method AssessReference(existing: Transaction, q: DuplicateQuery, score: int, texts: seq<string>) returns (similarityScore: int, reasons: seq<string>)
    ensures similarityScore == score + TotalWeight(ReferenceRules(existing, q))
    ensures reasons == texts + ReasonTexts(ReferenceRules(existing, q))
  {
    similarityScore, reasons := score, texts;
    if HasText(q.reference) && HasText(existing.reference)
       && EqualsIgnoreCase(existing.reference.value, q.reference.value) {
      similarityScore := similarityScore + 50;
      reasons := reasons + ["Same reference number"];
      AppendRule([], SameReferenceNumber);
    } else {
      assert reasons == texts + [];
    }
  }

  /** Rules 1 to 3 of AssessCandidate. */
  method AssessAmount(existing: Transaction, q: DuplicateQuery, now: Ticks) returns (similarityScore: int, reasons: seq<string>)
    ensures similarityScore == TotalWeight(AmountRules(existing, q, now))
    ensures reasons == ReasonTexts(AmountRules(existing, q, now))
  {
    similarityScore := 0;
    reasons := [];
    if existing.amount == q.amount && EqualsIgnoreCase(TypeName(existing.kind), q.kind) {
      similarityScore := similarityScore + 40;
      reasons := reasons + ["Same amount and type"];
      AppendRule([], SameAmountAndType);
      if Abs(existing.createdAt - now) <= RecentWindow {
        similarityScore := similarityScore + 60;
        reasons := reasons + ["Created within 5 minutes"];
        AppendRule([SameAmountAndType], CreatedWithinFiveMinutes);
      } else if DayOf(existing.transactionDate) == DayOf(q.transactionDate) {
        similarityScore := similarityScore + 35;
        reasons := reasons + ["Same transaction date"];
        AppendRule([SameAmountAndType], SameTransactionDate);
      }
    }
  }

  /** Scores one stored transaction and builds its report when the score reaches 70. */
  method ReportCandidate(existing: Transaction, q: DuplicateQuery, now: Ticks) returns (flag: Option<PotentialDuplicate>)
    ensures flag == Flag(existing, q, now)
  {
    var similarityScore, reasons := AssessCandidate(existing, q, now);
    if similarityScore >= 70 {
      flag := Some(PotentialDuplicate(existing.id, existing.amount, TypeName(existing.kind), existing.description,
                                      existing.transactionDate, existing.createdAt, similarityScore, Join("; ", reasons)));
    } else {
      flag := None;
    }
  }

  /** One more candidate adds its report, if any, at the end. */
  lemma FlagAllStep(candidates: seq<Transaction>, i: nat, q: DuplicateQuery, now: Ticks)
    requires i < |candidates|
    ensures FlagAll(candidates[..i + 1], q, now)
      == FlagAll(candidates[..i], q, now) + (match Flag(candidates[i], q, now) case Some(d) => [d] case None => [])
  {
    assert candidates[..i + 1][..i] == candidates[..i];
  }

  /**
   * FindPotentialDuplicatesAsync: loads the three-day window, scores each stored
   * transaction and keeps those reaching the threshold, highest score first.
   */
  method FindPotentialDuplicates(rows: seq<Transaction>, q: DuplicateQuery, now: Ticks) returns (duplicates: seq<PotentialDuplicate>)
    ensures duplicates == Detect(rows, q, now)
    ensures forall d :: d in duplicates ==> ReportThreshold <= d.similarityScore <= 180
    ensures SortedByKey(duplicates, ScoreKey)
  {
    var startDate := DateOf(q.transactionDate) - TicksPerDay;
    var endDate := DateOf(q.transactionDate) + TicksPerDay;
    var existingTransactions := GetByDateRange(rows, startDate, endDate);
    assert existingTransactions == SearchWindow(rows, q.transactionDate);
    var found: seq<PotentialDuplicate> := [];
    var i := 0;
    while i < |existingTransactions|
      invariant 0 <= i <= |existingTransactions|
      invariant found == FlagAll(existingTransactions[..i], q, now)
    {
      var flag := ReportCandidate(existingTransactions[i], q, now);
      if flag.Some? {
        found := found + [flag.value];
      }
      FlagAllStep(existingTransactions, i, q, now);
      i := i + 1;
    }
    assert existingTransactions[..i] == existingTransactions;
    duplicates := SortByKey(found, ScoreKey);
    DetectReportsOnlyReachingThreshold(rows, q, now);
    SortByKeySorted(found, ScoreKey);
  }

  lemma {:induction false} FlagAllMembers(candidates: seq<Transaction>, q: DuplicateQuery, now: Ticks)
    ensures forall d :: d in FlagAll(candidates, q, now) <==> exists e :: e in candidates && Flag(e, q, now) == Some(d)
  {
    if candidates != [] {
      var init, last := candidates[..|candidates| - 1], candidates[|candidates| - 1];
      FlagAllMembers(init, q, now);
      assert candidates == init + [last];
    }
  }

  /** Every report reached the threshold and at most 180. */
  lemma DetectReportsOnlyReachingThreshold(rows: seq<Transaction>, q: DuplicateQuery, now: Ticks)
    ensures forall d :: d in Detect(rows, q, now) ==> ReportThreshold <= d.similarityScore <= 180
  {
    var flagged := FlagAll(SearchWindow(rows, q.transactionDate), q, now);
    SortByKeyMembers(flagged, ScoreKey);
    FlagAllMembers(SearchWindow(rows, q.transactionDate), q, now);
  }

  /**
   * The reports are exactly the stored transactions dated within a day of the request
   * that reach the threshold, in descending score order; equal scores keep the
   * window's date order.
   */
  lemma DetectContents(rows: seq<Transaction>, q: DuplicateQuery, now: Ticks)
    ensures forall d :: d in Detect(rows, q, now) <==>
      exists e :: e in rows && DayOf(q.transactionDate) - 1 <= DayOf(e.transactionDate) <= DayOf(q.transactionDate) + 1
        && Flag(e, q, now) == Some(d)
    ensures SortedByKey(Detect(rows, q, now), ScoreKey)
    ensures forall k ::
      WithKey(Detect(rows, q, now), ScoreKey, k) == WithKey(FlagAll(SearchWindow(rows, q.transactionDate), q, now), ScoreKey, k)
  {
    var window := SearchWindow(rows, q.transactionDate);
    var flagged := FlagAll(window, q, now);
    SortByKeyMembers(flagged, ScoreKey);
    FlagAllMembers(window, q, now);
    SearchWindowMembers(rows, q.transactionDate);
    SortByKeySorted(flagged, ScoreKey);
    forall k
      ensures WithKey(Detect(rows, q, now), ScoreKey, k) == WithKey(flagged, ScoreKey, k)
    {
      SortByKeyStable(flagged, ScoreKey, k);
    }
  }

  /** The window holds exactly the stored transactions dated from the day before to the day after. */
  lemma SearchWindowMembers(rows: seq<Transaction>, date: Ticks)
    ensures forall t :: t in SearchWindow(rows, date) <==>
      t in rows && DayOf(date) - 1 <= DayOf(t.transactionDate) <= DayOf(date) + 1
  {
    var day := DayOf(date);
    var from, to := DateOf(date) - TicksPerDay, DateOf(date) + TicksPerDay;
    GetByDateRangeContents(rows, from, to);
    assert DayOf(from) == day - 1 && DayOf(to) == day + 1 by {
      NeighbourDays(date);
    }
  }

  lemma NeighbourDays(date: Ticks)
    ensures DayOf(DateOf(date) - TicksPerDay) == DayOf(date) - 1
    ensures DayOf(DateOf(date) + TicksPerDay) == DayOf(date) + 1
  {
  }
}
