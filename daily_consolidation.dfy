/**
 * The DailyConsolidation aggregate of the Consolidation service: one row per
 * calendar day holding the day's credit total, debit total, balance and the
 * number of transactions applied. AddCredit, AddDebit and Recalculate update
 * it in place and refuse negative amounts.
 */
module DailyConsolidationDomain {
  import opened Common

  /** The four running figures of a day. */
  datatype Totals = Totals(totalCredits: real, totalDebits: real, balance: real, transactionCount: int)

  const Zero := Totals(0.0, 0.0, 0.0, 0)

  /** The aggregate's invariant: the balance is credits minus debits. */
  predicate Balanced(t: Totals) {
    t.balance == t.totalCredits - t.totalDebits
  }

  /** One call of AddCredit or AddDebit. */
  datatype Entry = CreditEntry(amount: real) | DebitEntry(amount: real)

  const NegativeAmount := "Amount cannot be negative"
  const NegativeCount := "Transaction count cannot be negative"

  /** The effect of one call: a negative amount is refused and changes nothing; zero is accepted and counted. */
  function Applied(t: Totals, e: Entry): Totals {
    if e.amount < 0.0 then t
    else match e
      case CreditEntry(a) => Totals(t.totalCredits + a, t.totalDebits, t.balance + a, t.transactionCount + 1)
      case DebitEntry(a) => Totals(t.totalCredits, t.totalDebits + a, t.balance - a, t.transactionCount + 1)
  }

  /** The effect of a sequence of calls, in order. */
  function AppliedAll(t: Totals, es: seq<Entry>): Totals {
    if es == [] then t else Applied(AppliedAll(t, es[..|es| - 1]), es[|es| - 1])
  }

  /** The accepted credit amounts of a sequence of calls, summed. */
  function CreditSum(es: seq<Entry>): real {
    if es == [] then 0.0
    else CreditSum(es[..|es| - 1]) + (match es[|es| - 1] case CreditEntry(a) => if a < 0.0 then 0.0 else a case DebitEntry(_) => 0.0)
  }

  function DebitSum(es: seq<Entry>): real {
    if es == [] then 0.0
    else DebitSum(es[..|es| - 1]) + (match es[|es| - 1] case DebitEntry(a) => if a < 0.0 then 0.0 else a case CreditEntry(_) => 0.0)
  }

  /** The number of accepted calls. */
  function AcceptedCount(es: seq<Entry>): nat {
    if es == [] then 0 else AcceptedCount(es[..|es| - 1]) + (if es[|es| - 1].amount < 0.0 then 0 else 1)
  }

  /** Applying calls adds the accepted credits, the accepted debits and their count to the running figures. */
  lemma {:induction false} AppliedAllClosedForm(t: Totals, es: seq<Entry>)
    ensures AppliedAll(t, es) == Totals(t.totalCredits + CreditSum(es), t.totalDebits + DebitSum(es),
                                        t.balance + CreditSum(es) - DebitSum(es), t.transactionCount + AcceptedCount(es))
  {
    if es != [] {
      AppliedAllClosedForm(t, es[..|es| - 1]);
    }
  }

  /** Every call keeps the balance equal to credits minus debits. */
  lemma AppliedKeepsBalanced(t: Totals, e: Entry)
    requires Balanced(t)
    ensures Balanced(Applied(t, e))
  {
  }

  /** From a fresh consolidation, the figures are the sums of the accepted calls and the count is the number accepted. */
  lemma AppliedFromZero(es: seq<Entry>)
    ensures Balanced(AppliedAll(Zero, es))
    ensures AppliedAll(Zero, es).totalCredits == CreditSum(es) && AppliedAll(Zero, es).totalDebits == DebitSum(es)
    ensures AppliedAll(Zero, es).transactionCount == AcceptedCount(es)
  {
    AppliedAllClosedForm(Zero, es);
  }

  lemma {:induction false} SumsAppend(a: seq<Entry>, b: seq<Entry>)
    ensures CreditSum(a + b) == CreditSum(a) + CreditSum(b)
    ensures DebitSum(a + b) == DebitSum(a) + DebitSum(b)
    ensures AcceptedCount(a + b) == AcceptedCount(a) + AcceptedCount(b)
  {
    if b == [] {
      assert a + b == a;
    } else {
      assert (a + b)[..|a + b| - 1] == a + b[..|b| - 1];
      SumsAppend(a, b[..|b| - 1]);
    }
  }

  /** The order in which two batches of calls arrive does not change the figures. */
  lemma AppliedAllBatchOrder(t: Totals, a: seq<Entry>, b: seq<Entry>)
    ensures AppliedAll(t, a + b) == AppliedAll(t, b + a)
  {
    AppliedAllClosedForm(t, a + b);
    AppliedAllClosedForm(t, b + a);
    SumsAppend(a, b);
    SumsAppend(b, a);
  }

  /** What Recalculate leaves when its arguments are accepted. */
  function Recalculated(totalCredits: real, totalDebits: real, transactionCount: int): (r: Totals)
    ensures Balanced(r)
  {
    Totals(totalCredits, totalDebits, totalCredits - totalDebits, transactionCount)
  }

  /** The outcome of Recalculate: the credit check, then the debit check, then the count check. */
  function RecalculateOutcome(totalCredits: real, totalDebits: real, transactionCount: int): Outcome<string> {
    if totalCredits < 0.0 || totalDebits < 0.0 then Fail(NegativeAmount)
    else if transactionCount < 0 then Fail(NegativeCount)
    else Pass
  }

  /** Recalculating from the sums of a replay reproduces the replay's figures. */
  lemma RecalculateMatchesReplay(es: seq<Entry>)
    ensures var t := AppliedAll(Zero, es);
      RecalculateOutcome(t.totalCredits, t.totalDebits, t.transactionCount) == Pass
      && Recalculated(t.totalCredits, t.totalDebits, t.transactionCount) == t
  {
    AppliedFromZero(es);
    NonNegativeSums(es);
  }

  lemma {:induction false} NonNegativeSums(es: seq<Entry>)
    ensures CreditSum(es) >= 0.0 && DebitSum(es) >= 0.0
  {
    if es != [] {
      NonNegativeSums(es[..|es| - 1]);
    }
  }

  /** A stored daily_consolidations row. */
  datatype ConsolidationRow = ConsolidationRow(id: Guid, date: Ticks, totals: Totals, lastUpdated: Ticks, createdAt: Ticks)

  class DailyConsolidation {
    const id: Guid
    const date: Ticks
    const createdAt: Ticks
    var totalCredits: real
    var totalDebits: real
    var balance: real
    var transactionCount: int
    var lastUpdated: Ticks

    function Current(): Totals
      reads this
    {
      Totals(totalCredits, totalDebits, balance, transactionCount)
    }

    function Row(): ConsolidationRow
      reads this
    {
      ConsolidationRow(id, date, Current(), lastUpdated, createdAt)
    }

    /** DailyConsolidation.Create: the day's midnight, all figures zero, stamped with the creation time. */
    constructor Create(id: Guid, date: Ticks, now: Ticks)
      ensures this.id == id && this.date == DateOf(date) && Current() == Zero
      ensures lastUpdated == now && createdAt == now
    {
      this.id := id;
      this.date := DateOf(date);
      this.createdAt := now;
      totalCredits := 0.0;
      totalDebits := 0.0;
      balance := 0.0;
      transactionCount := 0;
      lastUpdated := now;
    }

    /** The entity as Entity Framework materialises it from a stored row. */
    constructor Load(row: ConsolidationRow)
      ensures Row() == row
    {
      id := row.id;
      date := row.date;
      createdAt := row.createdAt;
      totalCredits := row.totals.totalCredits;
      totalDebits := row.totals.totalDebits;
      balance := row.totals.balance;
      transactionCount := row.totals.transactionCount;
      lastUpdated := row.lastUpdated;
    }

    method AddCredit(amount: real, now: Ticks) returns (o: Outcome<string>)
      modifies this
      ensures o == if amount < 0.0 then Fail(NegativeAmount) else Pass
      ensures Current() == Applied(old(Current()), CreditEntry(amount))
      ensures lastUpdated == if o.Pass? then now else old(lastUpdated)
    {
      o := ValidateAmount(amount);
      if o.Fail? {
        return;
      }
      totalCredits := totalCredits + amount;
      balance := balance + amount;
      transactionCount := transactionCount + 1;
      lastUpdated := now;
    }

    method AddDebit(amount: real, now: Ticks) returns (o: Outcome<string>)
      modifies this
      ensures o == if amount < 0.0 then Fail(NegativeAmount) else Pass
      ensures Current() == Applied(old(Current()), DebitEntry(amount))
      ensures lastUpdated == if o.Pass? then now else old(lastUpdated)
    {
      o := ValidateAmount(amount);
      if o.Fail? {
        return;
      }
      totalDebits := totalDebits + amount;
      balance := balance - amount;
      transactionCount := transactionCount + 1;
      lastUpdated := now;
    }

    method Recalculate(totalCredits: real, totalDebits: real, transactionCount: int, now: Ticks) returns (o: Outcome<string>)
      modifies this
      ensures o == RecalculateOutcome(totalCredits, totalDebits, transactionCount)
      ensures o.Pass? ==> Current() == Recalculated(totalCredits, totalDebits, transactionCount) && lastUpdated == now
      ensures o.Fail? ==> Current() == old(Current()) && lastUpdated == old(lastUpdated)
    {
      o := ValidateAmount(totalCredits);
      if o.Fail? {
        return;
      }
      o := ValidateAmount(totalDebits);
      if o.Fail? {
        return;
      }
      if transactionCount < 0 {
        return Fail(NegativeCount);
      }
      this.totalCredits := totalCredits;
      this.totalDebits := totalDebits;
      this.balance := totalCredits - totalDebits;
      this.transactionCount := transactionCount;
      lastUpdated := now;
    }
  }

  function ValidateAmount(amount: real): (o: Outcome<string>)
    ensures o.Pass? <==> amount >= 0.0
    ensures o.Fail? ==> o.error == NegativeAmount
  {
    if amount < 0.0 then Fail(NegativeAmount) else Pass
  }
}
