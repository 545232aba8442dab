/**
 The repository and the worker in the source's own form: rows updated in place, a drain loop that
 claims batch after batch, and a delivery loop inside it. The clock and the provider's answers are
 arbitrary at every step.
 */
module OutboxWorker {
  import opened Options
  import opened Outbox

  /** A claimed row as the worker sees it. */
  datatype Delivery = Delivery(id: nat, deviceId: string, transferId: string, eventType: string, attempts: nat)

  function DeliveryOf(rows: seq<Row>, id: nat): Delivery
    requires id < |rows|
  {
    Delivery(id, rows[id].deviceId, rows[id].transferId, rows[id].eventType, rows[id].attempts)
  }

  class Repository {
    var rows: seq<Row>
    var now: int

    constructor (rows: seq<Row>, now: int)
      ensures this.rows == rows && this.now == now
    {
      this.rows, this.now := rows, now;
    }

    /** Time passes between any two statements. */
    method Elapse()
      modifies this`now
      ensures old(now) <= now
    {
      var later: int :| now <= later;
      now := later;
    }

    /** The `picked` subquery: scan in id order, skip what others hold, stop at the limit. */
    method Select(size: nat, busy: set<nat>) returns (picked: seq<nat>)
      ensures picked == Pick(rows, 0, now, busy, size)
    {
      picked := [];
      var id := 0;
      while id < |rows| && |picked| < size
        invariant id <= |rows| && |picked| <= size
        invariant Pick(rows, 0, now, busy, size) == picked + Pick(rows, id, now, busy, size - |picked|)
      {
        if Claimable(rows[id], now) && id !in busy {
          picked := picked + [id];
        }
        id := id + 1;
      }
    }

    /** The `locked` subquery. */
    method Lock(picked: seq<nat>)
      requires forall k :: 0 <= k < |picked| ==> picked[k] < |rows|
      modifies this`rows
      ensures rows == LockRows(old(rows), picked, now)
    {
      for k := 0 to |picked|
        invariant |rows| == |old(rows)|
        invariant forall i :: 0 <= i < |rows| ==>
                    rows[i] == if i in picked[..k] then old(rows)[i].(lockedAt := Some(now)) else old(rows)[i]
      {
        assert picked[..k + 1] == picked[..k] + [picked[k]];
        rows := rows[picked[k] := rows[picked[k]].(lockedAt := Some(now))];
      }
      assert picked[..|picked|] == picked;
    }

    method Claim(limit: int, busy: set<nat>) returns (deliveries: seq<Delivery>)
      modifies this`rows
      ensures var picked := Pick(old(rows), 0, now, busy, BatchLimit(limit));
              && rows == LockRows(old(rows), picked, now)
              && |deliveries| == |picked|
              && forall k :: 0 <= k < |picked| ==> deliveries[k] == DeliveryOf(old(rows), picked[k])
    {
      var size := limit;
      if size <= 0 {
        size := BATCH_SIZE;
      }
      var picked := Select(size, busy);
      Lock(picked);
      var locked := rows;
      deliveries := seq(|picked|, k requires 0 <= k < |picked| => DeliveryOf(locked, picked[k]));
    }

    method MarkSent(id: nat)
      requires id < |rows|
      modifies this`rows
      ensures rows == old(rows)[id := SentRow(old(rows)[id], now)]
    {
      var row := rows[id];
      rows := rows[id := row.(sentAt := Some(now), lockedAt := None, lastError := None)];
    }

    method Retry(id: nat, message: string, availableAt: int, final: bool)
      requires id < |rows|
      modifies this`rows
      ensures rows == old(rows)[id := RetriedRow(old(rows)[id], now, message, availableAt, final)]
    {
      var row := rows[id];
      row := row.(attempts := row.attempts + 1, lockedAt := None, lastError := Some(Left(message, MAX_ERROR)));
      if final {
        row := row.(failedAt := Some(now));
      } else {
        row := row.(availableAt := availableAt);
      }
      rows := rows[id := row];
    }
  }

  // ----- What is left to do -----

  /** Deliveries an unfinished row can still take: the next one is its last from the eighth attempt on. */
  function RowWork(r: Row): nat {
    if Terminal(r) then 0 else if r.attempts >= MAX_ATTEMPTS then 1 else MAX_ATTEMPTS - r.attempts
  }

  /** The deliveries still open to all rows. */
  function Work(rows: seq<Row>): nat {
    if rows == [] then 0 else RowWork(rows[0]) + Work(rows[1..])
  }

  lemma {:induction false} WorkUpdate(rows: seq<Row>, i: nat, r: Row)
    requires i < |rows|
    ensures Work(rows[i := r]) == Work(rows) - RowWork(rows[i]) + RowWork(r)
  {
    if i == 0 {
      assert rows[0 := r][1..] == rows[1..];
    } else {
      assert rows[i := r][1..] == rows[1..][i - 1 := r];
      WorkUpdate(rows[1..], i - 1, r);
    }
  }

  lemma {:induction false} WorkSame(rows: seq<Row>, rows': seq<Row>)
    requires |rows| == |rows'|
    requires forall i :: 0 <= i < |rows| ==> RowWork(rows[i]) == RowWork(rows'[i])
    ensures Work(rows) == Work(rows')
  {
    if rows != [] {
      WorkSame(rows[1..], rows'[1..]);
    }
  }

  predicate KeptRow(r: Row, r': Row) {
    && Kept(r, r') && r.attempts <= r'.attempts
    && (Terminal(r) ==> r' == r)
    && (r'.lockedAt.Some? ==> r'.lockedAt == r.lockedAt)
  }

  /** Nothing finished is touched, nothing is undone, and no lease is left that was not there before. */
  ghost predicate AllKept(rows: seq<Row>, rows': seq<Row>) {
    && |rows| == |rows'|
    && forall i :: 0 <= i < |rows| ==> KeptRow(rows[i], rows'[i])
  }

  /** A drain leaves each row alone or spends some of its work. */
  ghost predicate SameOrSpent(rows: seq<Row>, rows': seq<Row>) {
    && |rows| == |rows'|
    && forall i :: 0 <= i < |rows| ==> rows'[i] == rows[i] || RowWork(rows'[i]) < RowWork(rows[i])
  }

  lemma AllKeptThen(a: seq<Row>, b: seq<Row>, c: seq<Row>)
    requires AllKept(a, b) && AllKept(b, c)
    ensures AllKept(a, c)
  {
    forall i | 0 <= i < |a| ensures KeptRow(a[i], c[i]) {
      assert KeptRow(a[i], b[i]) && KeptRow(b[i], c[i]);
    }
  }

  lemma LockedBatch(rows: seq<Row>, picked: seq<nat>, now: int)
    requires forall k :: 0 <= k < |picked| ==> picked[k] < |rows| && Claimable(rows[picked[k]], now)
    ensures var rows' := LockRows(rows, picked, now);
            && Work(rows') == Work(rows)
            && forall k :: 0 <= k < |picked| ==> rows'[picked[k]] == rows[picked[k]].(lockedAt := Some(now))
  {
    WorkSame(rows, LockRows(rows, picked, now));
  }

  /** A row after its delivery: unlocked, nothing undone, and one attempt or the row itself spent. */
  predicate Handled(r: Row, r': Row) {
    r'.lockedAt.None? && Kept(r, r') && r.attempts <= r'.attempts && !Terminal(r) && RowWork(r') < RowWork(r)
  }

  lemma WriteSpends(r: Row, now: int, result: SendResult, cancelled: bool)
    requires !Terminal(r)
    ensures Handled(r, WrittenRow(r, r.attempts, now, result, cancelled))
  {
  }

  /** Handling the locked rows and leaving the others alone is handling the rows as they were before the claim. */
  lemma BatchOutcome(rows: seq<Row>, rows': seq<Row>, picked: seq<nat>, now: int)
    requires |rows'| == |rows| && forall k :: 0 <= k < |picked| ==> picked[k] < |rows|
    requires forall k :: 0 <= k < |picked| ==> Handled(LockRows(rows, picked, now)[picked[k]], rows'[picked[k]])
    requires forall i :: 0 <= i < |rows| && i !in picked ==> rows'[i] == rows[i]
    ensures AllKept(rows, rows')
    ensures forall i :: 0 <= i < |rows| ==>
                          if i in picked then RowWork(rows'[i]) < RowWork(rows[i]) else rows'[i] == rows[i]
  {
    forall i | 0 <= i < |rows| && i in picked ensures Handled(rows[i].(lockedAt := Some(now)), rows'[i]) {
      var k :| 0 <= k < |picked| && picked[k] == i;
      assert LockRows(rows, picked, now)[picked[k]] == rows[i].(lockedAt := Some(now));
    }
  }

  /** A short claim took every claimable row. */
  lemma {:induction false} ShortPickTakesAll(rows: seq<Row>, i: nat, now: int, limit: nat, id: nat)
    requires i <= id < |rows| && |Pick(rows, i, now, {}, limit)| < limit && Claimable(rows[id], now)
    ensures id in Pick(rows, i, now, {}, limit)
    decreases |rows| - i
  {
    var taken := Claimable(rows[i], now);
    var rest := Pick(rows, i + 1, now, {}, if taken then limit - 1 else limit);
    assert Pick(rows, i, now, {}, limit) == if taken then [i] + rest else rest;
    if i < id {
      ShortPickTakesAll(rows, i + 1, now, if taken then limit - 1 else limit, id);
    }
  }

  function Ids(deliveries: seq<Delivery>): (ids: seq<nat>)
    ensures |ids| == |deliveries|
    ensures forall k :: 0 <= k < |ids| ==> ids[k] == deliveries[k].id
  {
    seq(|deliveries|, k requires 0 <= k < |deliveries| => deliveries[k].id)
  }

  /** Whatever was claimable a moment before a short claim is in it. */
  lemma ShortBatch(rows: seq<Row>, start: int, at: int, limit: nat)
    requires start <= at && |Pick(rows, 0, at, {}, limit)| < limit
    ensures forall i :: 0 <= i < |rows| && Claimable(rows[i], start) ==> i in Pick(rows, 0, at, {}, limit)
  {
    forall i | 0 <= i < |rows| && Claimable(rows[i], start) ensures i in Pick(rows, 0, at, {}, limit) {
      ShortPickTakesAll(rows, 0, at, limit, i);
    }
  }

  // ----- One lease for a whole batch -----

  /** The moment before the k-th write: the write before it, or the claim. */
  function Before(claimedAt: int, times: seq<int>, k: nat): int
    requires k <= |times|
  {
    if k == 0 then claimedAt else times[k - 1]
  }

  predicate InOrder(claimedAt: int, times: seq<int>) {
    forall k :: 0 <= k < |times| ==> Before(claimedAt, times, k) <= times[k]
  }

  /** The writes of a batch come in order, each at most `pace` after the one before, the first after the claim. */
  predicate Paced(claimedAt: int, times: seq<int>, pace: nat) {
    InOrder(claimedAt, times) && forall k :: 0 <= k < |times| ==> times[k] <= Before(claimedAt, times, k) + pace
  }

  predicate AllPrompt(claimedAt: int, times: seq<int>) {
    forall k :: 0 <= k < |times| ==> times[k] <= claimedAt + LEASE
  }

  function Extended(claimedAt: int, times: seq<int>, now: int): (more: seq<int>)
    requires InOrder(claimedAt, times) && Before(claimedAt, times, |times|) <= now
    ensures InOrder(claimedAt, more) && more == times + [now]
  {
    assert forall k :: 0 <= k <= |times| ==> Before(claimedAt, times + [now], k) == Before(claimedAt, times, k);
    times + [now]
  }

  lemma {:induction false} PacedBy(claimedAt: int, times: seq<int>, pace: nat, k: nat)
    requires Paced(claimedAt, times, pace) && k < |times|
    ensures claimedAt <= times[k] <= claimedAt + (k + 1) * pace
  {
    assert Before(claimedAt, times, k) <= times[k] <= Before(claimedAt, times, k) + pace;
    if k > 0 {
      PacedBy(claimedAt, times, pace, k - 1);
      assert (k + 1) * pace == k * pace + pace;
    }
  }

  lemma PacedIsPrompt(claimedAt: int, times: seq<int>, pace: nat)
    requires Paced(claimedAt, times, pace) && |times| * pace <= LEASE
    ensures AllPrompt(claimedAt, times)
  {
    forall k | 0 <= k < |times| ensures times[k] <= claimedAt + LEASE {
      PacedBy(claimedAt, times, pace, k);
      TimesGrows(k + 1, |times|, pace);
    }
  }

  lemma TimesGrows(m: nat, n: nat, pace: nat)
    requires m <= n
    ensures m * pace <= n * pace
  {
    assert n * pace == m * pace + (n - m) * pace;
  }

  /** Every delivery takes as long as it may. */
  function Slowest(claimedAt: int, size: nat, pace: nat): (times: seq<int>)
    ensures |times| == size && forall k :: 0 <= k < size ==> times[k] == claimedAt + (k + 1) * pace
  {
    seq(size, k requires 0 <= k < size => claimedAt + (k + 1) * pace)
  }

  lemma SlowestPaced(claimedAt: int, size: nat, pace: nat)
    ensures Paced(claimedAt, Slowest(claimedAt, size, pace), pace)
  {
    var times := Slowest(claimedAt, size, pace);
    forall k | 0 <= k < size ensures times[k] == Before(claimedAt, times, k) + pace {
      assert (k + 1) * pace == k * pace + pace;
    }
  }

  /** A worker at this pace writes all of its batches within the lease if and only if the whole batch fits into it. */
  lemma BatchPromptIff(claimedAt: int, size: nat, pace: nat)
    requires size > 0
    ensures (forall times: seq<int> :: |times| == size && Paced(claimedAt, times, pace) ==> AllPrompt(claimedAt, times))
            <==> size * pace <= LEASE
  {
    if size * pace <= LEASE {
      forall times: seq<int> | |times| == size && Paced(claimedAt, times, pace) ensures AllPrompt(claimedAt, times) {
        PacedIsPrompt(claimedAt, times, pace);
      }
    } else {
      SlowestPaced(claimedAt, size, pace);
      var times := Slowest(claimedAt, size, pace);
      assert times[size - 1] == claimedAt + size * pace && !AllPrompt(claimedAt, times);
    }
  }

  /** A full batch of 50 is written within its five minutes for certain at six seconds a delivery, and no slower. */
  lemma FullBatchPromptIff(claimedAt: int, pace: nat)
    ensures (forall times: seq<int> :: |times| == BATCH_SIZE && Paced(claimedAt, times, pace) ==>
               AllPrompt(claimedAt, times))
            <==> pace <= 6000
  {
    BatchPromptIff(claimedAt, BATCH_SIZE, pace);
  }

  class Worker {
    const repo: Repository

    constructor (repo: Repository)
      ensures this.repo == repo
    {
      this.repo := repo;
    }

    /** One delivery: mark sent, or retry with the attempt count read at claim time. */
    method Deliver(delivery: Delivery, result: SendResult, cancelled: bool)
      requires delivery.id < |repo.rows|
      modifies repo`rows
      ensures repo.rows == old(repo.rows)[delivery.id :=
                             WrittenRow(old(repo.rows)[delivery.id], delivery.attempts, repo.now, result, cancelled)]
    {
      if result.Delivered? {
        repo.MarkSent(delivery.id);
        return;
      }
      var attempt := delivery.attempts + 1;
      var final := result.Permanent? || attempt >= MAX_ATTEMPTS;
      var backoff := RetryBackoff(attempt);
      if cancelled {
        backoff := 0;
      }
      repo.Retry(delivery.id, result.message, repo.now + backoff, final);
    }

    /** Delivers a claimed batch in order, writing at `times`; each delivery spends at least one unit of work. */
    method DeliverAll(deliveries: seq<Delivery>) returns (ghost times: seq<int>)
      requires forall k :: 0 <= k < |deliveries| ==>
                             && deliveries[k].id < |repo.rows|
                             && !Terminal(repo.rows[deliveries[k].id])
                             && repo.rows[deliveries[k].id].attempts == deliveries[k].attempts
      requires forall j, k :: 0 <= j < k < |deliveries| ==> deliveries[j].id != deliveries[k].id
      modifies repo
      ensures |repo.rows| == |old(repo.rows)| && old(repo.now) <= repo.now
      ensures Work(repo.rows) + |deliveries| <= Work(old(repo.rows))
      ensures InOrder(old(repo.now), times) && |times| == |deliveries|
      ensures times != [] ==> times[|times| - 1] == repo.now
      ensures forall k :: 0 <= k < |deliveries| ==>
                            Handled(old(repo.rows)[deliveries[k].id], repo.rows[deliveries[k].id])
      ensures forall i :: 0 <= i < |repo.rows| && i !in Ids(deliveries) ==> repo.rows[i] == old(repo.rows)[i]
    {
      ghost var before := repo.rows;
      times := [];
      var k := 0;
      while k < |deliveries|
        invariant k <= |deliveries| == |times| + (|deliveries| - k)
        invariant InOrder(old(repo.now), times) && repo.now == Before(old(repo.now), times, |times|)
        invariant |repo.rows| == |before| && old(repo.now) <= repo.now
        invariant Work(repo.rows) + k <= Work(before)
        invariant forall j :: k <= j < |deliveries| ==> repo.rows[deliveries[j].id] == before[deliveries[j].id]
        invariant forall j :: 0 <= j < k ==> Handled(before[deliveries[j].id], repo.rows[deliveries[j].id])
        invariant forall i :: 0 <= i < |before| && i !in Ids(deliveries) ==> repo.rows[i] == before[i]
      {
        DeliverOne(deliveries[k]);
        assert Ids(deliveries)[k] == deliveries[k].id;
        times := Extended(old(repo.now), times, repo.now);
        k := k + 1;
      }
    }

    /** The clock moves, the provider answers somehow, and the row is written. */
    method DeliverOne(delivery: Delivery)
      requires delivery.id < |repo.rows|
      requires !Terminal(repo.rows[delivery.id]) && repo.rows[delivery.id].attempts == delivery.attempts
      modifies repo
      ensures |repo.rows| == |old(repo.rows)| && old(repo.now) <= repo.now
      ensures Work(repo.rows) < Work(old(repo.rows))
      ensures Handled(old(repo.rows)[delivery.id], repo.rows[delivery.id])
      ensures forall i :: 0 <= i < |repo.rows| && i != delivery.id ==> repo.rows[i] == old(repo.rows)[i]
    {
      repo.Elapse();
      var presence: Presence := *;
      var next: SendResult := *;
      var cancelled: bool := *;
      var result := OfflineOnly(presence, next);
      WriteSpends(repo.rows[delivery.id], repo.now, result, cancelled);
      Deliver(delivery, result, cancelled);
      WorkUpdate(old(repo.rows), delivery.id, repo.rows[delivery.id]);
    }

    /**
     Claims and delivers until a claim comes back short. It ends for every outbox, whatever the clock
     and the provider do, after at most as many sends as there was work. Every row claimable at the
     start has then spent an attempt or is finished, finished rows are untouched, and no lease of its
     own is left behind.
     */
    method Drain() returns (sends: nat)
      modifies repo
      ensures AllKept(old(repo.rows), repo.rows)
      ensures sends <= Work(old(repo.rows)) - Work(repo.rows)
      ensures forall i :: 0 <= i < |repo.rows| && Claimable(old(repo.rows)[i], old(repo.now)) ==>
                            RowWork(repo.rows[i]) < RowWork(old(repo.rows)[i])
    {
      sends := 0;
      while true
        invariant AllKept(old(repo.rows), repo.rows) && old(repo.now) <= repo.now
        invariant sends <= Work(old(repo.rows)) - Work(repo.rows)
        invariant SameOrSpent(old(repo.rows), repo.rows)
        decreases Work(repo.rows)
      {
        ghost var before := repo.rows;
        var claimed := DrainBatch();
        AllKeptThen(old(repo.rows), before, repo.rows);
        sends := sends + claimed;
        if claimed < BATCH_SIZE {
          return;
        }
      }
    }

    /** One claim and its deliveries. */
    method DrainBatch() returns (claimed: nat)
      modifies repo
      ensures AllKept(old(repo.rows), repo.rows) && old(repo.now) <= repo.now
      ensures Work(repo.rows) + claimed <= Work(old(repo.rows))
      ensures SameOrSpent(old(repo.rows), repo.rows)
      ensures claimed < BATCH_SIZE ==>
                forall i :: 0 <= i < |repo.rows| && Claimable(old(repo.rows)[i], old(repo.now)) ==>
                              RowWork(repo.rows[i]) < RowWork(old(repo.rows)[i])
    {
      repo.Elapse();
      ghost var before := repo.rows;
      var deliveries := repo.Claim(BATCH_SIZE, {});
      ghost var at := repo.now;
      ghost var picked := Pick(before, 0, at, {}, BATCH_SIZE);
      LockedBatch(before, picked, at);
      assert Ids(deliveries) == picked;
      ghost var times := DeliverAll(deliveries);
      BatchOutcome(before, repo.rows, picked, at);
      claimed := |deliveries|;
      if claimed < BATCH_SIZE {
        ShortBatch(before, old(repo.now), at, BATCH_SIZE);
      }
    }
  }
}
