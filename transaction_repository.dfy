/**
 * The transaction ledger and its repository queries. The ledger is the list of
 * stored transactions in insertion order; the database enforces unique
 * idempotency keys and unique ids.
 */
module TransactionRepository {
  import opened Common
  import opened Sorting
  import opened TransactionDomain

  function TransactionDateOf(t: Transaction): int {
    t.transactionDate
  }

  function CreatedAtOf(t: Transaction): int {
    t.createdAt
  }

  /** The first stored transaction satisfying the lookup, as FirstOrDefaultAsync finds it. */
  function GetById(rows: seq<Transaction>, id: Guid): (r: Option<Transaction>)
    ensures r.Some? ==> r.value in rows && r.value.id == id
    ensures r.None? <==> forall t :: t in rows ==> t.id != id
  {
    if rows == [] then None
    else if rows[0].id == id then Some(rows[0])
    else GetById(rows[1..], id)
  }

  /** Appending a transaction does not change what an existing id finds. */
  lemma {:induction false} GetByIdAfterAppend(rows: seq<Transaction>, t: Transaction, id: Guid)
    requires GetById(rows, id).Some?
    ensures GetById(rows + [t], id) == GetById(rows, id)
  {
    if rows[0].id != id {
      assert (rows + [t])[1..] == rows[1..] + [t];
      GetByIdAfterAppend(rows[1..], t, id);
    }
  }

  /** Lookup by idempotency key; the comparison is exact. */
  function GetByIdempotencyKey(rows: seq<Transaction>, key: string): (r: Option<Transaction>)
    ensures r.Some? ==> r.value in rows && r.value.idempotencyKey == key
    ensures r.None? <==> forall t :: t in rows ==> t.idempotencyKey != key
  {
    if rows == [] then None
    else if rows[0].idempotencyKey == key then Some(rows[0])
    else GetByIdempotencyKey(rows[1..], key)
  }

  /** After appending a transaction whose key was free, the lookup by that key finds it. */
  lemma {:induction false} LookupAfterAppend(rows: seq<Transaction>, t: Transaction)
    requires GetByIdempotencyKey(rows, t.idempotencyKey).None?
    ensures GetByIdempotencyKey(rows + [t], t.idempotencyKey) == Some(t)
  {
    if rows != [] {
      assert (rows + [t])[1..] == rows[1..] + [t];
      LookupAfterAppend(rows[1..], t);
    }
  }

  /** ExistsByIdempotencyKeyAsync. */
  predicate ExistsByIdempotencyKey(rows: seq<Transaction>, key: string) {
    exists i :: 0 <= i < |rows| && rows[i].idempotencyKey == key
  }

  /** The existence check agrees with the lookup. */
  lemma ExistsIffFound(rows: seq<Transaction>, key: string)
    ensures ExistsByIdempotencyKey(rows, key) <==> GetByIdempotencyKey(rows, key).Some?
  {
    if GetByIdempotencyKey(rows, key).Some? {
      var t := GetByIdempotencyKey(rows, key).value;
      var i :| 0 <= i < |rows| && rows[i] == t;
    }
  }

  /** The transactions whose date lies in [from, to], in ledger order. */
  function DatedWithin(rows: seq<Transaction>, from: Ticks, to: Ticks): (r: seq<Transaction>)
    ensures forall t :: t in r <==> t in rows && from <= t.transactionDate <= to
  {
    if rows == [] then []
    else (if from <= rows[0].transactionDate <= to then [rows[0]] else []) + DatedWithin(rows[1..], from, to)
  }

  /**
   * GetByDateRangeAsync: the transactions dated from the start of startDate's day to the
   * last tick of endDate's day, ordered by transaction date (ties in ledger order).
   */
  function GetByDateRange(rows: seq<Transaction>, startDate: Ticks, endDate: Ticks): seq<Transaction> {
    SortByKey(DatedWithin(rows, DateOf(startDate), DateOf(endDate) + TicksPerDay - 1), TransactionDateOf)
  }

  /** A transaction is returned exactly when its day lies between the two days, and the result is date-ordered. */
  lemma GetByDateRangeContents(rows: seq<Transaction>, startDate: Ticks, endDate: Ticks)
    ensures forall t :: t in GetByDateRange(rows, startDate, endDate) <==>
      t in rows && DayOf(startDate) <= DayOf(t.transactionDate) <= DayOf(endDate)
    ensures SortedByKey(GetByDateRange(rows, startDate, endDate), TransactionDateOf)
  {
    var within := DatedWithin(rows, DateOf(startDate), DateOf(endDate) + TicksPerDay - 1);
    SortByKeyMembers(within, TransactionDateOf);
    forall t | t in rows
      ensures DateOf(startDate) <= t.transactionDate <= DateOf(endDate) + TicksPerDay - 1
          <==> DayOf(startDate) <= DayOf(t.transactionDate) <= DayOf(endDate)
    {
      DayBounds(t.transactionDate, startDate, endDate);
    }
    SortByKeySorted(within, TransactionDateOf);
  }

  lemma DayBounds(t: Ticks, startDate: Ticks, endDate: Ticks)
    ensures DateOf(startDate) <= t <==> DayOf(startDate) <= DayOf(t)
    ensures t <= DateOf(endDate) + TicksPerDay - 1 <==> DayOf(t) <= DayOf(endDate)
  {
  }

  /** The transactions dated from the day's midnight to its last tick, in ledger order. */
  function DatedOnDay(rows: seq<Transaction>, date: Ticks): seq<Transaction> {
    DatedWithin(rows, DateOf(date), DateOf(date) + TicksPerDay - 1)
  }

  /** GetByDateAsync: the transactions of one day, ordered by creation time (ties in ledger order). */
  function GetByDate(rows: seq<Transaction>, date: Ticks): seq<Transaction> {
    SortByKey(DatedOnDay(rows, date), CreatedAtOf)
  }

  /** CountByDateAsync. */
  function CountByDate(rows: seq<Transaction>, date: Ticks): (n: nat) {
    |DatedOnDay(rows, date)|
  }

  /** The count agrees with the day's listing, and the listing holds exactly that day's transactions, in creation order. */
  lemma CountMatchesListing(rows: seq<Transaction>, date: Ticks)
    ensures CountByDate(rows, date) == |GetByDate(rows, date)|
    ensures forall t :: t in GetByDate(rows, date) <==> t in rows && DayOf(t.transactionDate) == DayOf(date)
    ensures SortedByKey(GetByDate(rows, date), CreatedAtOf)
  {
    var within := DatedOnDay(rows, date);
    SortByKeyMembers(within, CreatedAtOf);
    DatedOnDayMembers(rows, date);
    SortByKeySorted(within, CreatedAtOf);
  }

  /** The window from the day's midnight to its last tick holds exactly that day's transactions. */
  lemma DatedOnDayMembers(rows: seq<Transaction>, date: Ticks)
    ensures forall t :: t in DatedOnDay(rows, date) <==> t in rows && DayOf(t.transactionDate) == DayOf(date)
  {
    forall t | t in rows
      ensures DateOf(date) <= t.transactionDate <= DateOf(date) + TicksPerDay - 1 <==> DayOf(t.transactionDate) == DayOf(date)
    {
      DayBounds(t.transactionDate, date, date);
    }
  }

  predicate UniqueKeys(rows: seq<Transaction>) {
    forall i, j :: 0 <= i < j < |rows| ==> rows[i].idempotencyKey != rows[j].idempotencyKey
  }

  predicate UniqueIds(rows: seq<Transaction>) {
    forall i, j :: 0 <= i < j < |rows| ==> rows[i].id != rows[j].id
  }

  /** The number of stored transactions carrying a key. */
  function CountWithKey(rows: seq<Transaction>, key: string): nat {
    if rows == [] then 0
    else (if rows[0].idempotencyKey == key then 1 else 0) + CountWithKey(rows[1..], key)
  }

  /** Under the unique index, a key that is present is present exactly once. */
  lemma {:induction false} UniqueKeyCount(rows: seq<Transaction>, key: string)
    requires UniqueKeys(rows)
    ensures CountWithKey(rows, key) == (if ExistsByIdempotencyKey(rows, key) then 1 else 0)
  {
    if rows != [] {
      UniqueKeyCount(rows[1..], key);
      if rows[0].idempotencyKey == key {
        assert !ExistsByIdempotencyKey(rows[1..], key);
      } else {
        if ExistsByIdempotencyKey(rows, key) {
          var i :| 0 <= i < |rows| && rows[i].idempotencyKey == key;
          assert rows[1..][i - 1].idempotencyKey == key;
        }
      }
    }
  }

  /** The Transactions table behind the repository and its unit of work. */
  class TransactionStore {
    var rows: seq<Transaction>
    var nextId: Guid

    /** The unique indexes hold and every id handed out so far is below nextId. */
    ghost predicate Valid()
      reads this
    {
      UniqueKeys(rows) && UniqueIds(rows) && forall i :: 0 <= i < |rows| ==> rows[i].id < nextId
    }

    constructor ()
      ensures rows == [] && Valid()
    {
      rows := [];
      nextId := 0;
    }

    /** Guid.NewGuid(): an id no stored transaction carries. */
    method NewId() returns (id: Guid)
      requires Valid()
      modifies this
      ensures Valid() && rows == old(rows)
      ensures id == old(nextId) && nextId == id + 1
      ensures GetById(rows, id).None?
    {
      id := nextId;
      nextId := nextId + 1;
    }

    /**
     * AddAsync followed by SaveChangesAsync: the row is appended unless the save fails,
     * which it does when the key or the id is already taken.
     */
    method Add(t: Transaction, saveFails: bool) returns (saved: bool)
      requires Valid()
      modifies this
      ensures Valid()
      ensures saved <==> !saveFails && !ExistsByIdempotencyKey(old(rows), t.idempotencyKey) && GetById(old(rows), t.id).None?
      ensures rows == if saved then old(rows) + [t] else old(rows)
    {
      ExistsIffFound(rows, t.idempotencyKey);
      if saveFails || GetByIdempotencyKey(rows, t.idempotencyKey).Some? || GetById(rows, t.id).Some? {
        return false;
      }
      rows := rows + [t];
      if nextId <= t.id {
        nextId := t.id + 1;
      }
      saved := true;
    }
  }
}
