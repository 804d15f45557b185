/**
 * The daily_consolidations table behind DailyConsolidationRepository and its
 * unit of work. The unique index on the date makes the table a map from day
 * number to row.
 */
module ConsolidationRepository {
  import opened Common
  import opened DailyConsolidationDomain

  /** Every row sits under the day of its date, at midnight. */
  predicate Aligned(rows: map<int, ConsolidationRow>) {
    forall d :: d in rows ==> rows[d].date == d * TicksPerDay
  }

  /** GetByDateAsync: the row whose Date equals the argument's day, if any. */
  function GetByDate(rows: map<int, ConsolidationRow>, date: Ticks): (r: Option<ConsolidationRow>)
    ensures r.Some? <==> DayOf(date) in rows
    ensures Aligned(rows) && r.Some? ==> r.value.date == DateOf(date)
    ensures Aligned(rows) && r.None? ==> forall d :: d in rows ==> rows[d].date != DateOf(date)
  {
    if DayOf(date) in rows then Some(rows[DayOf(date)]) else None
  }

  /** The rows of days lo through hi, in ascending date order. */
  function RowsBetween(rows: map<int, ConsolidationRow>, lo: int, hi: int): seq<ConsolidationRow>
    decreases hi - lo
  {
    if lo > hi then [] else (if lo in rows then [rows[lo]] else []) + RowsBetween(rows, lo + 1, hi)
  }

  /** GetByDateRangeAsync: the rows from the start date's day to the end date's day, ordered by Date. */
  function GetByDateRange(rows: map<int, ConsolidationRow>, startDate: Ticks, endDate: Ticks): seq<ConsolidationRow> {
    RowsBetween(rows, DayOf(startDate), DayOf(endDate))
  }

  lemma {:induction false} RowsBetweenContents(rows: map<int, ConsolidationRow>, lo: int, hi: int)
    requires Aligned(rows)
    ensures forall r :: r in RowsBetween(rows, lo, hi) <==> exists d :: lo <= d <= hi && d in rows && rows[d] == r
    ensures forall r :: r in RowsBetween(rows, lo, hi) ==> lo * TicksPerDay <= r.date <= hi * TicksPerDay
    ensures forall i, j :: 0 <= i < j < |RowsBetween(rows, lo, hi)| ==>
      RowsBetween(rows, lo, hi)[i].date < RowsBetween(rows, lo, hi)[j].date
    decreases hi - lo
  {
    if lo <= hi {
      RowsBetweenContents(rows, lo + 1, hi);
      var rest := RowsBetween(rows, lo + 1, hi);
      forall r | r in rest
        ensures lo * TicksPerDay < r.date
      {
        var d :| lo + 1 <= d <= hi && d in rows && rows[d] == r;
      }
    }
  }

  /**
   * The range query returns exactly the stored rows whose day lies between the two days,
   * in strictly ascending date order, and nothing when the start day is after the end day.
   */
  lemma GetByDateRangeContents(rows: map<int, ConsolidationRow>, startDate: Ticks, endDate: Ticks)
    requires Aligned(rows)
    ensures forall d :: d in rows ==>
      (rows[d] in GetByDateRange(rows, startDate, endDate) <==> DayOf(startDate) <= d <= DayOf(endDate))
    ensures forall r :: r in GetByDateRange(rows, startDate, endDate) ==> exists d :: d in rows && rows[d] == r
    ensures forall i, j :: 0 <= i < j < |GetByDateRange(rows, startDate, endDate)| ==>
      GetByDateRange(rows, startDate, endDate)[i].date < GetByDateRange(rows, startDate, endDate)[j].date
    ensures DayOf(startDate) > DayOf(endDate) ==> GetByDateRange(rows, startDate, endDate) == []
  {
    RowsBetweenContents(rows, DayOf(startDate), DayOf(endDate));
    forall d | d in rows && rows[d] in GetByDateRange(rows, startDate, endDate)
      ensures DayOf(startDate) <= d <= DayOf(endDate)
    {
      var d' :| DayOf(startDate) <= d' <= DayOf(endDate) && d' in rows && rows[d'] == rows[d];
      assert d * TicksPerDay == d' * TicksPerDay;
    }
  }

  /** The Consolidation database's daily_consolidations table. */
  class ConsolidationStore {
    var rows: map<int, ConsolidationRow>
    var nextId: Guid

    /** Rows sit under their day, keep the aggregate's balance, and carry ids below nextId. */
    ghost predicate Valid()
      reads this
    {
      Aligned(rows) && forall d :: d in rows ==> Balanced(rows[d].totals) && rows[d].id < nextId
    }

    constructor ()
      ensures rows == map[] && Valid()
    {
      rows := map[];
      nextId := 0;
    }

    /** Guid.NewGuid(): an id no stored row carries. */
    method NewId() returns (id: Guid)
      requires Valid()
      modifies this
      ensures Valid() && rows == old(rows)
      ensures id == old(nextId) && nextId == id + 1
      ensures forall d :: d in rows ==> rows[d].id != id
    {
      id := nextId;
      nextId := nextId + 1;
    }

    /**
     * AddAsync (a new row) or Update (an existing one), then SaveChangesAsync. The save fails
     * when it throws, when a new row's date is already taken (the unique index), or when an
     * updated row no longer exists.
     */
    method Save(row: ConsolidationRow, isNew: bool, saveFails: bool) returns (saved: bool)
      requires Valid()
      requires row.date == DayOf(row.date) * TicksPerDay && Balanced(row.totals)
      modifies this
      ensures Valid()
      ensures saved <==> !saveFails && (if isNew then DayOf(row.date) !in old(rows) else DayOf(row.date) in old(rows))
      ensures rows == if saved then old(rows)[DayOf(row.date) := row] else old(rows)
    {
      var day := DayOf(row.date);
      if saveFails || (isNew && day in rows) || (!isNew && day !in rows) {
        return false;
      }
      rows := rows[day := row];
      if nextId <= row.id {
        nextId := row.id + 1;
      }
      saved := true;
    }

    /** DELETE FROM daily_consolidations WHERE date = @Date. */
    method DeleteDay(day: int)
      requires Valid()
      modifies this
      ensures Valid()
      ensures rows == old(rows) - {day}
    {
      rows := rows - {day};
    }
  }
}
