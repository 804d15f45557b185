/**
 * TransactionEventConsumer.ProcessMessageAsync: one delivery from the
 * transaction-created queue. The body is deserialised; an event that does not
 * deserialise is rejected without requeueing. Otherwise the event becomes a
 * ProcessTransaction command run under a retry policy (three retries after
 * the first attempt, waiting 2, 4 and 8 seconds); a handler failure counts
 * as an exception and is retried. The delivery is acknowledged once an
 * attempt succeeds and rejected without requeueing when all attempts fail.
 * The event id is not used, so a redelivered event is applied again.
 */
module EventConsumer {
  import opened Common
  import opened TransactionContracts
  import opened DailyConsolidationDomain
  import opened ConsolidationRepository
  import opened ConsolidationContracts
  import opened ProcessTransaction

  /** What deserialising a message body gives: invalid JSON throws, the JSON literal null gives null. */
  datatype Delivery = MalformedJson | NullEvent | EventDelivery(event: TransactionCreatedEvent)

  /** What the consumer sends back on the channel for a delivery tag. */
  datatype Reply = Ack(tag: nat) | Nack(tag: nat, requeue: bool)

  /** The RabbitMQ channel, reduced to the acknowledgements sent on it. */
  class Channel {
    var replies: seq<Reply>

    constructor ()
      ensures replies == []
    {
      replies := [];
    }

    method BasicAck(tag: nat)
      modifies this
      ensures replies == old(replies) + [Ack(tag)]
    {
      replies := replies + [Ack(tag)];
    }

    method BasicNack(tag: nat, requeue: bool)
      modifies this
      ensures replies == old(replies) + [Nack(tag, requeue)]
    {
      replies := replies + [Nack(tag, requeue)];
    }
  }

  const RetryCount: nat := 3
  const MaxAttempts: nat := RetryCount + 1

  function Pow2(n: nat): (r: nat)
    ensures r >= 1
  {
    if n == 0 then 1 else 2 * Pow2(n - 1)
  }

  /** The wait before retry n (counted from 1): 2^n seconds. */
  function RetryDelaySeconds(n: nat): nat {
    Pow2(n)
  }

  /** The waits before the first k retries. */
  function Delays(k: nat): (r: seq<nat>)
    ensures |r| == k && forall i :: 0 <= i < k ==> r[i] == RetryDelaySeconds(i + 1)
  {
    if k == 0 then []
    else
      var r := Delays(k - 1) + [RetryDelaySeconds(k)];
      assert forall i :: 0 <= i < k - 1 ==> r[i] == Delays(k - 1)[i];
      r
  }

  /** The schedule is 2, 4 and 8 seconds. */
  lemma RetrySchedule()
    ensures Delays(RetryCount) == [2, 4, 8]
  {
    assert RetryDelaySeconds(1) == 2 && RetryDelaySeconds(2) == 4 && RetryDelaySeconds(3) == 8;
  }

  /** The command built from the event: its id, amount, type and date; the event id and time are dropped. */
  function ToCommand(e: TransactionCreatedEvent): (r: ProcessTransactionCommand)
    ensures r.transactionId == e.transactionId && r.amount == e.amount && r.kind == e.kind
    ensures r.transactionDate == e.transactionDate
  {
    ProcessTransactionCommand(e.transactionId, e.amount, e.kind, e.transactionDate)
  }

  /** Redeliveries of the same transaction under new event ids produce the same command. */
  lemma RedeliveryIsIndistinguishable(e: TransactionCreatedEvent, eventId: Guid, occurredOn: Ticks)
    ensures ToCommand(e.(eventId := eventId, occurredOn := occurredOn)) == ToCommand(e)
  {
  }

  /** How many handler executions the policy makes, counting from attempt i (0 is the first). */
  function ExecutionsFrom(cmd: ProcessTransactionCommand, envs: nat -> ProcessEnvironment, i: nat): (r: nat)
    requires i < MaxAttempts
    ensures i < r <= MaxAttempts
    decreases MaxAttempts - i
  {
    if Succeeds(cmd, envs(i)) || i == MaxAttempts - 1 then i + 1 else ExecutionsFrom(cmd, envs, i + 1)
  }

  function Executions(cmd: ProcessTransactionCommand, envs: nat -> ProcessEnvironment): (r: nat)
    ensures 1 <= r <= MaxAttempts
  {
    ExecutionsFrom(cmd, envs, 0)
  }

  /** The policy stops at the first successful attempt, and after the last retry. */
  lemma {:induction false} ExecutionsFromStop(cmd: ProcessTransactionCommand, envs: nat -> ProcessEnvironment, i: nat, a: nat)
    requires i <= a < MaxAttempts
    requires forall j :: i <= j < a ==> !Succeeds(cmd, envs(j))
    requires Succeeds(cmd, envs(a)) || a == MaxAttempts - 1
    ensures ExecutionsFrom(cmd, envs, i) == a + 1
    decreases a - i
  {
    if i < a {
      ExecutionsFromStop(cmd, envs, i + 1, a);
    }
  }

  /** The executions made: every one before the last failed, and the last succeeded or was the last allowed. */
  lemma {:induction false} ExecutionsCharacterised(cmd: ProcessTransactionCommand, envs: nat -> ProcessEnvironment, i: nat)
    requires i < MaxAttempts
    ensures forall j :: i <= j < ExecutionsFrom(cmd, envs, i) - 1 ==> !Succeeds(cmd, envs(j))
    ensures Succeeds(cmd, envs(ExecutionsFrom(cmd, envs, i) - 1)) || ExecutionsFrom(cmd, envs, i) == MaxAttempts
    decreases MaxAttempts - i
  {
    if !Succeeds(cmd, envs(i)) && i < MaxAttempts - 1 {
      ExecutionsCharacterised(cmd, envs, i + 1);
    }
  }

  /** The delivery is acknowledged exactly when one of the four attempts would succeed. */
  lemma AckedIffSomeAttemptSucceeds(cmd: ProcessTransactionCommand, envs: nat -> ProcessEnvironment)
    ensures Succeeds(cmd, envs(Executions(cmd, envs) - 1)) <==> exists j :: 0 <= j < MaxAttempts && Succeeds(cmd, envs(j))
  {
    ExecutionsCharacterised(cmd, envs, 0);
    if exists j :: 0 <= j < MaxAttempts && Succeeds(cmd, envs(j)) {
      var j :| 0 <= j < MaxAttempts && Succeeds(cmd, envs(j));
      assert j >= Executions(cmd, envs) - 1;
    }
  }

  /** The calls saved by the first n attempts, in order. */
  function PersistedAttempts(cmd: ProcessTransactionCommand, envs: nat -> ProcessEnvironment, n: nat): (r: seq<Entry>)
    ensures |r| <= n
  {
    if n == 0 then []
    else PersistedAttempts(cmd, envs, n - 1) + (if Persists(cmd, envs(n - 1)) then [EntryOf(cmd).value] else [])
  }

  lemma PersistedAttemptsStep(t: Totals, cmd: ProcessTransactionCommand, envs: nat -> ProcessEnvironment, n: nat)
    ensures AppliedAll(t, PersistedAttempts(cmd, envs, n + 1)) ==
      if Persists(cmd, envs(n)) then Applied(AppliedAll(t, PersistedAttempts(cmd, envs, n)), EntryOf(cmd).value)
      else AppliedAll(t, PersistedAttempts(cmd, envs, n))
  {
    var prev := PersistedAttempts(cmd, envs, n);
    if Persists(cmd, envs(n)) {
      assert (prev + [EntryOf(cmd).value])[..|prev|] == prev;
    } else {
      assert prev + [] == prev;
    }
  }

  /**
   * An attempt that saves but then fails to remove the cache entry is retried, and the
   * retry applies the amount a second time.
   */
  lemma DoubleApplyAfterCacheFailure(cmd: ProcessTransactionCommand, envs: nat -> ProcessEnvironment, t: Totals)
    requires Persists(cmd, envs(0)) && envs(0).cacheRemoveFails && Succeeds(cmd, envs(1))
    ensures Executions(cmd, envs) == 2
    ensures AppliedAll(t, PersistedAttempts(cmd, envs, Executions(cmd, envs))).transactionCount == t.transactionCount + 2
  {
    ExecutionsFromStop(cmd, envs, 0, 1);
    PersistedAttemptsStep(t, cmd, envs, 0);
    PersistedAttemptsStep(t, cmd, envs, 1);
  }

  /** A command whose type the handler does not recognise is attempted four times and rejected. */
  lemma UnknownTypeIsRejected(cmd: ProcessTransactionCommand, envs: nat -> ProcessEnvironment)
    requires EntryOf(cmd).None?
    ensures Executions(cmd, envs) == MaxAttempts && !Succeeds(cmd, envs(MaxAttempts - 1))
  {
    ExecutionsFromStop(cmd, envs, 0, MaxAttempts - 1);
  }

  /**
   * The state after the first n attempts: the command's day holds its figures from before
   * with every saved attempt applied, and the other days are as they were.
   */
  ghost predicate Folded(rows: map<int, ConsolidationRow>, before: map<int, ConsolidationRow>,
                         cmd: ProcessTransactionCommand, envs: nat -> ProcessEnvironment, n: nat)
  {
    var day := DayOf(cmd.transactionDate);
    DayTotals(rows, day) == AppliedAll(DayTotals(before, day), PersistedAttempts(cmd, envs, n))
    && rows - {day} == before - {day}
  }

  /** The cache has lost at most the entry of one day. */
  ghost predicate AtMostDropped(entries: map<CacheKey, DailyConsolidationDto>, before: map<CacheKey, DailyConsolidationDto>,
                                day: int)
  {
    entries == before || entries == before - {ConsolidationKey(day)}
  }

  lemma AtMostDroppedTwice(entries: map<CacheKey, DailyConsolidationDto>, middle: map<CacheKey, DailyConsolidationDto>,
                           before: map<CacheKey, DailyConsolidationDto>, day: int)
    requires AtMostDropped(entries, middle, day) && AtMostDropped(middle, before, day)
    ensures AtMostDropped(entries, before, day)
  {
    if middle != before {
      assert middle - {ConsolidationKey(day)} == middle;
    }
  }

  /** One execution of the policy's delegate, attempt n: a new scope and the handler. */
  method Attempt(store: ConsolidationStore, cache: Cache<DailyConsolidationDto>, cmd: ProcessTransactionCommand,
                 envs: nat -> ProcessEnvironment, n: nat,
                 ghost before: map<int, ConsolidationRow>, ghost cached: map<CacheKey, DailyConsolidationDto>)
    returns (succeeded: bool)
    requires store.Valid()
    requires Folded(store.rows, before, cmd, envs, n)
    requires AtMostDropped(cache.entries, cached, DayOf(cmd.transactionDate))
    modifies store, cache
    ensures store.Valid()
    ensures succeeded <==> Succeeds(cmd, envs(n))
    ensures Folded(store.rows, before, cmd, envs, n + 1)
    ensures AtMostDropped(cache.entries, cached, DayOf(cmd.transactionDate))
  {
    ghost var day := DayOf(cmd.transactionDate);
    PersistedAttemptsStep(DayTotals(before, day), cmd, envs, n);
    var result := Handle(store, cache, cmd, envs(n));
    succeeded := result.Pass?;
    assert store.rows - {day} == old(store.rows) - {day} by {
      if Persists(cmd, envs(n)) {
        assert old(store.rows)[day := store.rows[day]] - {day} == old(store.rows) - {day};
      }
    }
    AtMostDroppedTwice(cache.entries, old(cache.entries), cached, day);
  }

  /** The retry policy around the delegate; attempt i runs in envs(i). The waits are returned instead of slept. */
  method ExecuteWithRetry(store: ConsolidationStore, cache: Cache<DailyConsolidationDto>, cmd: ProcessTransactionCommand,
                          envs: nat -> ProcessEnvironment) returns (succeeded: bool, waits: seq<nat>)
    requires store.Valid()
    modifies store, cache
    ensures store.Valid()
    ensures var n := Executions(cmd, envs);
      && (succeeded <==> Succeeds(cmd, envs(n - 1)))
      && waits == Delays(n - 1)
      && Folded(store.rows, old(store.rows), cmd, envs, n)
      && AtMostDropped(cache.entries, old(cache.entries), DayOf(cmd.transactionDate))
  {
    ghost var day := DayOf(cmd.transactionDate);
    ghost var before := store.rows;
    var attempt: nat := 0;
    waits := [];
    assert Folded(store.rows, before, cmd, envs, 0);
    succeeded := Attempt(store, cache, cmd, envs, 0, before, cache.entries);
    while !succeeded && attempt < RetryCount
      invariant attempt <= RetryCount
      invariant store.Valid()
      invariant succeeded <==> Succeeds(cmd, envs(attempt))
      invariant Executions(cmd, envs) == ExecutionsFrom(cmd, envs, attempt)
      invariant waits == Delays(attempt)
      invariant Folded(store.rows, before, cmd, envs, attempt + 1)
      invariant AtMostDropped(cache.entries, old(cache.entries), day)
      decreases RetryCount - attempt
    {
      waits := waits + [RetryDelaySeconds(attempt + 1)];
      attempt := attempt + 1;
      succeeded := Attempt(store, cache, cmd, envs, attempt, before, old(cache.entries));
    }
    assert ExecutionsFrom(cmd, envs, attempt) == attempt + 1;
  }

  /** ProcessMessageAsync for the delivery with the given tag; attempt i runs in envs(i). */
  method ProcessMessage(channel: Channel, store: ConsolidationStore, cache: Cache<DailyConsolidationDto>, tag: nat,
                        delivery: Delivery, envs: nat -> ProcessEnvironment) returns (waits: seq<nat>)
    requires store.Valid()
    modifies channel, store, cache
    ensures store.Valid()
    ensures !delivery.EventDelivery? ==>
      && channel.replies == old(channel.replies) + [Nack(tag, false)]
      && store.rows == old(store.rows) && cache.entries == old(cache.entries) && waits == []
    ensures delivery.EventDelivery? ==>
      var cmd := ToCommand(delivery.event);
      var day := DayOf(cmd.transactionDate);
      var n := Executions(cmd, envs);
      && channel.replies == old(channel.replies) + [if Succeeds(cmd, envs(n - 1)) then Ack(tag) else Nack(tag, false)]
      && waits == Delays(n - 1)
      && DayTotals(store.rows, day) == AppliedAll(DayTotals(old(store.rows), day), PersistedAttempts(cmd, envs, n))
      && store.rows - {day} == old(store.rows) - {day}
      && (cache.entries == old(cache.entries) || cache.entries == old(cache.entries) - {ConsolidationKey(day)})
  {
    if !delivery.EventDelivery? {
      channel.BasicNack(tag, false);
      return [];
    }
    var cmd := ToCommand(delivery.event);
    var succeeded;
    succeeded, waits := ExecuteWithRetry(store, cache, cmd, envs);
    if succeeded {
      channel.BasicAck(tag);
    } else {
      channel.BasicNack(tag, false);
    }
  }
}
