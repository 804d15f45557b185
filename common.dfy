/**
 * Vocabulary shared by the Transactions and Consolidation services: the Result
 * types of the application layer, identifiers, UTC timestamps and the
 * distributed cache.
 */
module Common {
  import opened Text
  import opened Calendar

  datatype Option<+T> = None | Some(value: T)

  /** The application layer's Result<T>: a value, or the error that prevented it. */
  datatype Result<+T, +E> = Success(value: T) | Failure(error: E)

  /** The application layer's non-generic Result: success without a value, or an error. */
  datatype Outcome<+E> = Pass | Fail(error: E)

  /** An application error. Validation, NotFound, Conflict and Failure errors all carry a code and a message. */
  datatype Error = Error(code: string, message: string)

  /** Entity and event identifiers. */
  type Guid = nat

  /** Decimal rendering of an identifier, used inside messages and cache keys. */
  function GuidText(id: Guid): string {
    NatToString(id)
  }

  /** A UTC DateTime, counted in 100-nanosecond ticks. */
  type Ticks = int

  const TicksPerSecond: int := 10_000_000
  const TicksPerMinute: int := 600_000_000
  const TicksPerDay: int := 864_000_000_000

  /** The calendar day of a timestamp, counted from 0001-01-01. */
  function DayOf(t: Ticks): int {
    t / TicksPerDay
  }

  /** DateTime.Date: midnight at the start of the timestamp's day. */
  function DateOf(t: Ticks): (r: Ticks)
    ensures r <= t < r + TicksPerDay
    ensures r % TicksPerDay == 0
    ensures DayOf(r) == DayOf(t)
  {
    DayOf(t) * TicksPerDay
  }

  /** DateTime.AddYears: the same time of day on the shifted calendar date. */
  function AddYears(t: Ticks, years: int): Ticks {
    AddYearsToDay(DayOf(t), years) * TicksPerDay + t % TicksPerDay
  }

  function Abs(x: int): nat {
    if x < 0 then -x else x
  }

  function Max(a: int, b: int): int {
    if a < b then b else a
  }

  /** Math.Round: the nearest integer, with halves going to the even neighbour. */
  function RoundHalfEven(x: real): int {
    var f := x.Floor;
    var fraction := x - f as real;
    if fraction < 0.5 then f
    else if fraction > 0.5 then f + 1
    else if f % 2 == 0 then f
    else f + 1
  }

  lemma RoundHalfEvenWithin(x: real, lo: int, hi: int)
    requires lo as real <= x <= hi as real
    ensures lo <= RoundHalfEven(x) <= hi
  {
  }

  /** The keys of the distributed cache: "transaction:{id}" and "consolidation:{yyyy-MM-dd}". */
  datatype CacheKey = TransactionKey(id: Guid) | ConsolidationKey(day: int) {
    function Text(): string {
      match this
      case TransactionKey(id) => "transaction:" + GuidText(id)
      case ConsolidationKey(day) => "consolidation:" + DateText(day)
    }
  }

  /** Which of a query handler's infrastructure calls throw. */
  datatype ReadFaults = ReadFaults(cacheGetFails: bool, storeFails: bool, cacheSetFails: bool)

  /** The distributed cache (Redis). Entry expiry is not modelled. */
  class Cache<V> {
    var entries: map<CacheKey, V>

    constructor ()
      ensures entries == map[]
    {
      entries := map[];
    }

    method Set(key: CacheKey, value: V)
      modifies this
      ensures entries == old(entries)[key := value]
    {
      entries := entries[key := value];
    }

    method Remove(key: CacheKey)
      modifies this
      ensures entries == old(entries) - {key}
    {
      entries := entries - {key};
    }
  }
}
