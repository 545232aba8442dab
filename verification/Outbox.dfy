/**
 The durable push outbox: rows claimed by any number of workers under a five-minute lease, sent,
 retried with backoff, or failed for good. A row's id is its position in `rows`; times are in
 milliseconds on one clock.
 */
module Outbox {
  import opened Options

  const LEASE: int := 300_000
  const MAX_ATTEMPTS: nat := 8
  const BATCH_SIZE: nat := 50
  const MAX_ERROR: nat := 2000
  const MAX_BACKOFF: nat := 300_000

  datatype Row = Row(
    deviceId: string,
    transferId: string,
    eventType: string,
    attempts: nat,
    availableAt: int,
    lockedAt: Option<int>,
    sentAt: Option<int>,
    failedAt: Option<int>,
    lastError: Option<string>)

  predicate Terminal(r: Row) {
    r.sentAt.Some? || r.failedAt.Some?
  }

  predicate Claimable(r: Row, now: int) {
    && !Terminal(r) && r.availableAt <= now
    && (r.lockedAt.None? || r.lockedAt.value < now - LEASE)
  }

  /** The first `limit` claimable rows from `i` on, in id order, skipping rows other transactions hold. */
  function Pick(rows: seq<Row>, i: nat, now: int, busy: set<nat>, limit: nat): (picked: seq<nat>)
    requires i <= |rows|
    ensures |picked| <= limit
    ensures forall k :: 0 <= k < |picked| ==>
                          i <= picked[k] < |rows| && Claimable(rows[picked[k]], now) && picked[k] !in busy
    ensures forall j, k :: 0 <= j < k < |picked| ==> picked[j] < picked[k]
    decreases |rows| - i
  {
    if i == |rows| || limit == 0 then []
    else if Claimable(rows[i], now) && i !in busy then [i] + Pick(rows, i + 1, now, busy, limit - 1)
    else Pick(rows, i + 1, now, busy, limit)
  }

  function BatchLimit(limit: int): nat {
    if limit <= 0 then BATCH_SIZE else limit
  }

  function LockRows(rows: seq<Row>, picked: seq<nat>, now: int): (locked: seq<Row>)
    ensures |locked| == |rows|
  {
    seq(|rows|, i requires 0 <= i < |rows| => if i in picked then rows[i].(lockedAt := Some(now)) else rows[i])
  }

  function SentRow(r: Row, now: int): Row {
    r.(sentAt := Some(now), lockedAt := None, lastError := None)
  }

  function Left(s: string, n: nat): string {
    if |s| <= n then s else s[..n]
  }

  function RetriedRow(r: Row, now: int, message: string, availableAt: int, final: bool): Row {
    var r' := r.(attempts := r.attempts + 1, lockedAt := None, lastError := Some(Left(message, MAX_ERROR)));
    if final then r'.(failedAt := Some(now)) else r'.(availableAt := availableAt)
  }

  // ----- The worker's decisions -----

  datatype SendResult = Delivered | Transient(message: string) | Permanent(message: string)
  datatype Presence = NoPresence | Online | Offline | PresenceError

  /** A connected device counts as delivered; any doubt falls through to the push provider. */
  function OfflineOnly(presence: Presence, next: SendResult): SendResult {
    if presence.Online? then Delivered else next
  }

  function Pow2(n: nat): (p: nat)
    ensures p >= 1
  {
    if n == 0 then 1 else 2 * Pow2(n - 1)
  }

  function RetryBackoff(attempt: int): nat {
    var exponent := if attempt < 1 then 0 else if attempt - 1 < 9 then attempt - 1 else 9;
    var delay := 1000 * Pow2(exponent);
    if delay > MAX_BACKOFF then MAX_BACKOFF else delay
  }

  predicate FinalAttempt(attempts: nat, result: SendResult) {
    result.Permanent? || attempts + 1 >= MAX_ATTEMPTS
  }

  /** A cancelled worker hands the row back at once. */
  function Backoff(attempts: nat, cancelled: bool): nat {
    if cancelled then 0 else RetryBackoff(attempts + 1)
  }

  /** What delivering `attempts`'s snapshot of a row writes to it. */
  function WrittenRow(r: Row, attempts: nat, now: int, result: SendResult, cancelled: bool): Row {
    if result.Delivered? then SentRow(r, now)
    else RetriedRow(r, now, result.message, now + Backoff(attempts, cancelled), FinalAttempt(attempts, result))
  }

  // ----- Any number of workers -----

  /** A row in a worker's hands, with the attempts it saw when claiming. */
  datatype Hold = Hold(worker: nat, id: nat, attempts: nat, claimedAt: int)

  /** `delays[i]` is history: the backoff scheduled for row i so far. */
  datatype State = State(rows: seq<Row>, delays: seq<nat>, now: int, holds: set<Hold>)

  datatype Action =
    | Enqueue(deviceId: string, transferId: string, eventType: string)
    | Tick(ms: nat)
    | Claim(worker: nat, limit: int, busy: set<nat>)
    | Write(h: Hold, result: SendResult, cancelled: bool)
    | Drop(h: Hold)  // crash, or a write the database refused

  function NewRow(deviceId: string, transferId: string, eventType: string, now: int): Row {
    Row(deviceId, transferId, eventType, 0, now, None, None, None, None)
  }

  function Init(): State {
    State([], [], 0, {})
  }

  function Claimed(s: State, worker: nat, picked: seq<nat>): set<Hold>
    requires forall k :: 0 <= k < |picked| ==> picked[k] < |s.rows|
  {
    set i | i in picked :: Hold(worker, i, s.rows[i].attempts, s.now)
  }

  function WriteStep(s: State, h: Hold, result: SendResult, cancelled: bool): State
    requires h.id < |s.rows| == |s.delays|
  {
    var r := WrittenRow(s.rows[h.id], h.attempts, s.now, result, cancelled);
    var delay := if result.Delivered? || FinalAttempt(h.attempts, result) then 0 else Backoff(h.attempts, cancelled);
    State(s.rows[h.id := r], s.delays[h.id := s.delays[h.id] + delay], s.now, s.holds - {h})
  }

  function Step(s: State, a: Action): State {
    match a
    case Enqueue(d, t, e) => s.(rows := s.rows + [NewRow(d, t, e, s.now)], delays := s.delays + [0])
    case Tick(ms) => s.(now := s.now + ms)
    case Claim(worker, limit, busy) =>
      var picked := Pick(s.rows, 0, s.now, busy, BatchLimit(limit));
      s.(rows := LockRows(s.rows, picked, s.now), holds := s.holds + Claimed(s, worker, picked))
    case Write(h, result, cancelled) =>
      if h in s.holds && h.id < |s.rows| == |s.delays| then WriteStep(s, h, result, cancelled) else s
    case Drop(h) => s.(holds := s.holds - {h})
  }

  function Run(s: State, acts: seq<Action>): State
    decreases |acts|
  {
    if acts == [] then s else Run(Step(s, acts[0]), acts[1..])
  }

  /** A claim returns exactly the claimable, unheld rows that have fewer than `limit` such rows before them. */
  function EligibleBefore(rows: seq<Row>, i: nat, id: nat, now: int, busy: set<nat>): nat
    requires i <= id <= |rows|
    decreases id - i
  {
    if i == id then 0
    else (if Claimable(rows[i], now) && i !in busy then 1 else 0) + EligibleBefore(rows, i + 1, id, now, busy)
  }

  lemma {:induction false} PickExact(rows: seq<Row>, i: nat, now: int, busy: set<nat>, limit: nat, id: nat)
    requires i <= id < |rows|
    ensures id in Pick(rows, i, now, busy, limit)
            <==> && Claimable(rows[id], now) && id !in busy
                 && EligibleBefore(rows, i, id, now, busy) < limit
    decreases |rows| - i
  {
    if limit > 0 {
      var taken := Claimable(rows[i], now) && i !in busy;
      var rest := Pick(rows, i + 1, now, busy, if taken then limit - 1 else limit);
      assert Pick(rows, i, now, busy, limit) == if taken then [i] + rest else rest;
      if i < id {
        PickExact(rows, i + 1, now, busy, if taken then limit - 1 else limit, id);
      }
    }
  }

  /** A row abandoned under a lease is handed out again once five minutes have passed. */
  lemma AbandonedRowReturns(s: State, worker: nat, limit: int, busy: set<nat>, id: nat)
    requires id < |s.rows| && !Terminal(s.rows[id]) && id !in busy
    requires s.rows[id].availableAt <= s.now
    requires s.rows[id].lockedAt.Some? ==> s.rows[id].lockedAt.value + LEASE < s.now
    requires EligibleBefore(s.rows, 0, id, s.now, busy) < BatchLimit(limit)
    ensures Hold(worker, id, s.rows[id].attempts, s.now) in Step(s, Claim(worker, limit, busy)).holds
  {
    PickExact(s.rows, 0, s.now, busy, BatchLimit(limit), id);
  }

  // ----- Terminal rows, with no assumption about leases -----

  predicate Kept(r: Row, r': Row) {
    && (r.sentAt.Some? ==> r'.sentAt.Some?)
    && (r.failedAt.Some? ==> r'.failedAt.Some?)
  }

  lemma {:induction false} TerminalRun(s: State, acts: seq<Action>, id: nat)
    requires id < |s.rows|
    ensures id < |Run(s, acts).rows| && Kept(s.rows[id], Run(s, acts).rows[id])
    decreases |acts|
  {
    if acts != [] {
      TerminalRun(Step(s, acts[0]), acts[1..], id);
    }
  }

  /**
   Sent and failed are final in every interleaving, late writes of stale lease holders included:
   neither mark is ever cleared, and no later claim returns the row.
   */
  lemma TerminalForever(s: State, acts: seq<Action>, id: nat, worker: nat, limit: int, busy: set<nat>)
    requires id < |s.rows| && Terminal(s.rows[id])
    ensures var s' := Run(s, acts);
            && id < |s'.rows| && Kept(s.rows[id], s'.rows[id])
            && forall h :: h in Step(s', Claim(worker, limit, busy)).holds && h !in s'.holds ==> h.id != id
  {
    TerminalRun(s, acts, id);
  }

  // ----- Exclusivity and the retry budget, when late writes are withheld -----

  predicate Fresh(h: Hold, now: int) {
    now <= h.claimedAt + LEASE
  }

  /** A worker writes within five minutes of its claim, or not at all. */
  ghost predicate Prompt(s: State, a: Action) {
    a.Write? && a.h in s.holds ==> Fresh(a.h, s.now)
  }

  ghost predicate PromptRun(s: State, acts: seq<Action>)
    decreases |acts|
  {
    acts != [] ==> Prompt(s, acts[0]) && PromptRun(Step(s, acts[0]), acts[1..])
  }

  function DelayBudget(attempts: nat): nat {
    1000 * (Pow2(attempts) - 1)
  }

  predicate WithinBudget(r: Row, delay: nat) {
    if r.failedAt.Some? then
      1 <= r.attempts <= MAX_ATTEMPTS && delay <= DelayBudget(r.attempts - 1) && r.sentAt.None?
    else
      r.attempts < MAX_ATTEMPTS && delay <= DelayBudget(r.attempts)
  }

  ghost predicate HoldsMatch(s: State) {
    forall h :: h in s.holds ==>
                  && h.id < |s.rows| && h.claimedAt <= s.now
                  && (Fresh(h, s.now) ==>
                        && s.rows[h.id].lockedAt == Some(h.claimedAt)
                        && s.rows[h.id].attempts == h.attempts
                        && !Terminal(s.rows[h.id]))
  }

  ghost predicate OneHolder(s: State) {
    forall g, h :: g in s.holds && h in s.holds && g.id == h.id && Fresh(g, s.now) && Fresh(h, s.now) ==> g == h
  }

  ghost predicate Budgeted(s: State) {
    && |s.delays| == |s.rows|
    && forall i :: 0 <= i < |s.rows| ==> WithinBudget(s.rows[i], s.delays[i])
  }

  ghost predicate Inv(s: State) {
    HoldsMatch(s) && OneHolder(s) && Budgeted(s)
  }

  lemma BackoffFits(attempts: nat, cancelled: bool)
    ensures DelayBudget(attempts) + Backoff(attempts, cancelled) <= DelayBudget(attempts + 1)
  {
    if attempts < 9 {
      assert Backoff(attempts, false) <= 1000 * Pow2(attempts);
    } else {
      Pow2Grows(9, attempts);
    }
  }

  lemma {:induction false} Pow2Grows(m: nat, n: nat)
    requires m <= n
    ensures Pow2(m) <= Pow2(n)
    decreases n
  {
    if m < n {
      Pow2Grows(m, n - 1);
    }
  }

  lemma ClaimKeeps(s: State, worker: nat, limit: int, busy: set<nat>)
    requires Inv(s)
    ensures Inv(Step(s, Claim(worker, limit, busy)))
  {
    var picked := Pick(s.rows, 0, s.now, busy, BatchLimit(limit));
    var s' := Step(s, Claim(worker, limit, busy));
    forall h | h in s'.holds
      ensures h in s.holds || (h.id in picked && h == Hold(worker, h.id, s.rows[h.id].attempts, s.now))
      ensures h in s.holds && Fresh(h, s.now) ==> h.id !in picked
    {
    }
  }

  lemma WriteKeeps(s: State, h: Hold, result: SendResult, cancelled: bool)
    requires Inv(s) && h in s.holds && Fresh(h, s.now)
    ensures Inv(WriteStep(s, h, result, cancelled))
  {
    var s' := WriteStep(s, h, result, cancelled);
    BackoffFits(h.attempts, cancelled);
    forall g | g in s'.holds && Fresh(g, s.now) ensures g.id != h.id {
    }
  }

  lemma InvStep(s: State, a: Action)
    requires Inv(s) && Prompt(s, a)
    ensures Inv(Step(s, a))
  {
    match a
    case Claim(worker, limit, busy) => ClaimKeeps(s, worker, limit, busy);
    case Write(h, result, cancelled) => if h in s.holds { WriteKeeps(s, h, result, cancelled); }
    case _ =>
  }

  lemma {:induction false} InvRun(s: State, acts: seq<Action>)
    requires Inv(s) && PromptRun(s, acts)
    ensures Inv(Run(s, acts))
    decreases |acts|
  {
    if acts != [] {
      InvStep(s, acts[0]);
      InvRun(Step(s, acts[0]), acts[1..]);
    }
  }

  /** At most one worker holds a live lease on a row, and it holds the current version of it. */
  lemma LeaseExclusive(acts: seq<Action>, g: Hold, h: Hold)
    requires PromptRun(Init(), acts)
    requires var s := Run(Init(), acts);
             g in s.holds && h in s.holds && g.id == h.id && Fresh(g, s.now) && Fresh(h, s.now)
    ensures var s := Run(Init(), acts);
            g == h && h.id < |s.rows| && s.rows[h.id].attempts == h.attempts && !Terminal(s.rows[h.id])
  {
    InvRun(Init(), acts);
  }

  /** Seven retries at most, then failure on the eighth; at most 127 seconds of backoff; never both sent and failed. */
  lemma RetryBudget(acts: seq<Action>, id: nat)
    requires PromptRun(Init(), acts) && id < |Run(Init(), acts).rows|
    ensures var s := Run(Init(), acts);
            && (s.rows[id].failedAt.None? ==> s.rows[id].attempts <= 7)
            && (s.rows[id].failedAt.Some? ==> s.rows[id].attempts <= 8 && s.rows[id].sentAt.None?)
            && |s.delays| == |s.rows| && s.delays[id] <= 127_000
  {
    InvRun(Init(), acts);
    var s := Run(Init(), acts);
    var r := s.rows[id];
    assert WithinBudget(r, s.delays[id]);
    Pow2Grows(if r.failedAt.Some? then r.attempts - 1 else r.attempts, 7);
    assert Pow2(7) == 128;
  }

  // ----- A late write breaks it -----

  /** A worker's copy is never ahead of the row, and is behind a row that failed since. */
  ghost predicate HoldsBehind(s: State) {
    && |s.delays| == |s.rows|
    && forall h :: h in s.holds ==>
                     && h.id < |s.rows| && h.attempts <= s.rows[h.id].attempts
                     && (s.rows[h.id].failedAt.Some? ==> h.attempts < s.rows[h.id].attempts)
  }

  lemma BehindClaim(s: State, worker: nat, limit: int, busy: set<nat>)
    requires HoldsBehind(s)
    ensures HoldsBehind(Step(s, Claim(worker, limit, busy)))
  {
    var picked := Pick(s.rows, 0, s.now, busy, BatchLimit(limit));
    var s' := Step(s, Claim(worker, limit, busy));
    forall h | h in s'.holds
      ensures h in s.holds || (h.id in picked && h == Hold(worker, h.id, s.rows[h.id].attempts, s.now))
    {
    }
  }

  lemma {:induction false} BehindRun(s: State, acts: seq<Action>)
    requires HoldsBehind(s)
    ensures HoldsBehind(Run(s, acts))
    decreases |acts|
  {
    if acts != [] {
      if acts[0].Claim? {
        BehindClaim(s, acts[0].worker, acts[0].limit, acts[0].busy);
      }
      BehindRun(Step(s, acts[0]), acts[1..]);
    }
  }

  /** What a write would have to check of the row for the row to stay within its budget. */
  predicate WriteFits(r: Row, attempts: nat, result: SendResult) {
    if result.Delivered? then r.failedAt.None?
    else if r.failedAt.Some? then r.attempts < MAX_ATTEMPTS
    else if FinalAttempt(attempts, result) then r.sentAt.None?
    else r.attempts + 1 < MAX_ATTEMPTS
  }

  lemma DelayFits(attempts: nat, later: nat, cancelled: bool)
    requires attempts <= later < MAX_ATTEMPTS
    ensures DelayBudget(later) + Backoff(attempts, cancelled) <= DelayBudget(later + 1)
  {
    Pow2Grows(attempts, later);
    BackoffFits(attempts, cancelled);
  }

  /**
   With no assumption about leases: in every run, a write keeps a row within its attempts, its total delay and
   its one outcome exactly when the row still admits it. A late write is harmful for no other reason.
   */
  lemma WriteKeepsBudgetIff(acts: seq<Action>, h: Hold, result: SendResult, cancelled: bool)
    requires var s := Run(Init(), acts);
             h in s.holds && h.id < |s.rows| == |s.delays| && WithinBudget(s.rows[h.id], s.delays[h.id])
    ensures var s := Run(Init(), acts);
            var s' := Step(s, Write(h, result, cancelled));
            WithinBudget(s'.rows[h.id], s'.delays[h.id]) <==> WriteFits(s.rows[h.id], h.attempts, result)
  {
    BehindRun(Init(), acts);
    var r := Run(Init(), acts).rows[h.id];
    if !result.Delivered? && !FinalAttempt(h.attempts, result) {
      if r.failedAt.Some? {
        DelayFits(h.attempts, r.attempts - 1, cancelled);
      } else {
        DelayFits(h.attempts, r.attempts, cancelled);
      }
    } else if !result.Delivered? && r.failedAt.Some? {
      Pow2Grows(r.attempts - 1, r.attempts);
    }
  }

  lemma RunThree(s: State, a: Action, b: Action, c: Action)
    ensures Run(s, [a, b, c]) == Step(Step(Step(s, a), b), c)
  {
    assert [a, b, c][1..] == [b, c] && [b, c][1..] == [c];
    assert Run(s, [a, b, c]) == Run(Step(s, a), [b, c]);
    assert Run(Step(s, a), [b, c]) == Run(Step(Step(s, a), b), [c]);
    assert Run(Step(Step(s, a), b), [c]) == Run(Step(Step(Step(s, a), b), c), []);
  }

  lemma {:induction false} RunConcat(s: State, acts: seq<Action>, more: seq<Action>)
    ensures Run(s, acts + more) == Run(Run(s, acts), more)
    decreases |acts|
  {
    if acts == [] {
      assert acts + more == more;
    } else {
      assert (acts + more)[1..] == acts[1..] + more;
      RunConcat(Step(s, acts[0]), acts[1..], more);
    }
  }

  /** Worker 1 outlives its lease; worker 2 takes the row over; both then write. */
  function LateWrite(): seq<Action> {
    [Enqueue("", "", ""), Claim(1, 1, {}), Tick(300_001)]
    + [Claim(2, 1, {}), Write(Hold(1, 0, 0, 0), Delivered, false),
       Write(Hold(2, 0, 0, 300_001), Permanent(""), false)]
  }

  lemma ClaimsOnlyRow(s: State, worker: nat)
    requires |s.rows| == 1 && Claimable(s.rows[0], s.now)
    ensures var s' := Step(s, Claim(worker, 1, {}));
            && s'.rows == [s.rows[0].(lockedAt := Some(s.now))]
            && s'.holds == s.holds + {Hold(worker, 0, s.rows[0].attempts, s.now)}
            && s'.delays == s.delays && s'.now == s.now
  {
    assert Pick(s.rows, 0, s.now, {}, 1) == [0];
  }

  lemma FirstClaims()
    ensures var s := Run(Init(), [Enqueue("", "", ""), Claim(1, 1, {}), Tick(300_001)]);
            && s.rows == [NewRow("", "", "", 0).(lockedAt := Some(0))]
            && s.delays == [0] && s.now == 300_001 && s.holds == {Hold(1, 0, 0, 0)}
  {
    RunThree(Init(), Enqueue("", "", ""), Claim(1, 1, {}), Tick(300_001));
    ClaimsOnlyRow(Step(Init(), Enqueue("", "", "")), 1);
  }

  lemma BothWrite(s: State)
    requires |s.rows| == 1 == |s.delays| && s.holds == {Hold(1, 0, 0, 0), Hold(2, 0, 0, 300_001)}
    ensures var s' := Step(Step(s, Write(Hold(1, 0, 0, 0), Delivered, false)),
                           Write(Hold(2, 0, 0, 300_001), Permanent(""), false));
            |s'.rows| == 1 && s'.rows[0].sentAt.Some? && s'.rows[0].failedAt.Some?
  {
  }

  /** The row ends up both sent and failed. */
  lemma LateWriteBreaksOutcome()
    ensures var s := Run(Init(), LateWrite());
            |s.rows| == 1 && s.rows[0].sentAt.Some? && s.rows[0].failedAt.Some?
  {
    var first := [Enqueue("", "", ""), Claim(1, 1, {}), Tick(300_001)];
    var h1, h2 := Hold(1, 0, 0, 0), Hold(2, 0, 0, 300_001);
    RunConcat(Init(), first, [Claim(2, 1, {}), Write(h1, Delivered, false), Write(h2, Permanent(""), false)]);
    FirstClaims();
    var s3 := Run(Init(), first);
    RunThree(s3, Claim(2, 1, {}), Write(h1, Delivered, false), Write(h2, Permanent(""), false));
    ClaimsOnlyRow(s3, 2);
    BothWrite(Step(s3, Claim(2, 1, {})));
  }

  /** Worker 1 outlives its lease, worker 2 takes the row over, and worker 1 then asks for a retry. */
  function LateRetry(): seq<Action> {
    [Enqueue("", "", ""), Claim(1, 1, {}), Tick(300_001)]
    + [Claim(2, 1, {}), Write(Hold(1, 0, 0, 0), Transient(""), false), Tick(1000)]
  }

  lemma RetryUnlocks(s: State)
    requires |s.rows| == 1 == |s.delays| && s.now == 300_001 && !Terminal(s.rows[0]) && s.rows[0].attempts == 0
    requires s.holds == {Hold(1, 0, 0, 0), Hold(2, 0, 0, 300_001)}
    ensures var s' := Step(Step(s, Write(Hold(1, 0, 0, 0), Transient(""), false)), Tick(1000));
            && |s'.rows| == 1 && s'.now == 301_001 && s'.holds == {Hold(2, 0, 0, 300_001)}
            && Claimable(s'.rows[0], s'.now) && s'.rows[0].attempts == 1
  {
    assert RetryBackoff(1) == 1000 by {
      assert Pow2(0) == 1;
    }
  }

  /** A third worker then gets the row while worker 2's lease is live. */
  lemma LateRetryBreaksExclusivity()
    ensures var s := Step(Run(Init(), LateRetry()), Claim(3, 1, {}));
            && Hold(2, 0, 0, 300_001) in s.holds && Hold(3, 0, 1, 301_001) in s.holds
            && Fresh(Hold(2, 0, 0, 300_001), s.now) && Fresh(Hold(3, 0, 1, 301_001), s.now)
  {
    var first := [Enqueue("", "", ""), Claim(1, 1, {}), Tick(300_001)];
    var write := Write(Hold(1, 0, 0, 0), Transient(""), false);
    RunConcat(Init(), first, [Claim(2, 1, {}), write, Tick(1000)]);
    FirstClaims();
    var s3 := Run(Init(), first);
    RunThree(s3, Claim(2, 1, {}), write, Tick(1000));
    ClaimsOnlyRow(s3, 2);
    RetryUnlocks(Step(s3, Claim(2, 1, {})));
    ClaimsOnlyRow(Run(Init(), LateRetry()), 3);
  }
}
