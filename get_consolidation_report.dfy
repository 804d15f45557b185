/**
 * GetConsolidationReportQueryHandler: the consolidations of a range of days.
 * The bounds are compared as full timestamps; the range query then uses their
 * days. An empty range is a successful empty report.
 */
module GetConsolidationReport {
  import opened Common
  import opened DailyConsolidationDomain
  import opened ConsolidationRepository
  import opened ConsolidationContracts

  const InvalidDateRangeError := Error("Consolidation.InvalidDateRange", "Start date must be before or equal to end date")
  const ReportFailedError := Error("Consolidation.ReportFailed", "An error occurred while generating the report")

  /** The mapper applied to a list: one DTO per row, in order. */
  function ToDtos(rows: seq<ConsolidationRow>): (r: seq<DailyConsolidationDto>)
    ensures |r| == |rows|
    ensures forall i :: 0 <= i < |rows| ==> r[i] == ToDto(rows[i])
  {
    if rows == [] then [] else ToDtos(rows[..|rows| - 1]) + [ToDto(rows[|rows| - 1])]
  }

  /** Handle(GetConsolidationReportQuery); readFails says whether the range query throws. */
  function Report(rows: map<int, ConsolidationRow>, startDate: Ticks, endDate: Ticks, readFails: bool)
    : (r: Result<seq<DailyConsolidationDto>, Error>)
    ensures r == Failure(InvalidDateRangeError) <==> startDate > endDate
    ensures r == Failure(ReportFailedError) <==> startDate <= endDate && readFails
  {
    if startDate > endDate then Failure(InvalidDateRangeError)
    else if readFails then Failure(ReportFailedError)
    else Success(ToDtos(GetByDateRange(rows, DateOf(startDate), DateOf(endDate))))
  }

  /**
   * A successful report holds, in ascending date order, the DTO of every stored day from the
   * start date's day to the end date's day and nothing else; a range without rows is an empty
   * success.
   */
  lemma ReportContents(rows: map<int, ConsolidationRow>, startDate: Ticks, endDate: Ticks)
    requires Aligned(rows)
    requires startDate <= endDate
    ensures Report(rows, startDate, endDate, false).Success?
    ensures var dtos := Report(rows, startDate, endDate, false).value;
      && (forall d :: d in rows && DayOf(startDate) <= d <= DayOf(endDate) ==> ToDto(rows[d]) in dtos)
      && (forall i :: 0 <= i < |dtos| ==>
            exists d :: d in rows && DayOf(startDate) <= d <= DayOf(endDate) && dtos[i] == ToDto(rows[d]))
      && (forall i, j :: 0 <= i < j < |dtos| ==> dtos[i].date < dtos[j].date)
    ensures (forall d :: d in rows ==> d < DayOf(startDate) || DayOf(endDate) < d) ==>
      Report(rows, startDate, endDate, false) == Success([])
  {
    var from, to := DateOf(startDate), DateOf(endDate);
    var found := GetByDateRange(rows, from, to);
    GetByDateRangeContents(rows, from, to);
    var dtos := ToDtos(found);
    forall d | d in rows && DayOf(startDate) <= d <= DayOf(endDate)
      ensures ToDto(rows[d]) in dtos
    {
      var i :| 0 <= i < |found| && found[i] == rows[d];
      assert dtos[i] == ToDto(rows[d]);
    }
    forall i | 0 <= i < |dtos|
      ensures exists d :: d in rows && DayOf(startDate) <= d <= DayOf(endDate) && dtos[i] == ToDto(rows[d])
    {
      assert found[i] in found;
      var d :| d in rows && rows[d] == found[i];
    }
  }
}
