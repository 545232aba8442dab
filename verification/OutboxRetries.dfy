/**
 That a push is not given up early: how many attempts a failed row has had, how long a retry waits, and what
 counts as sent.
 */
module OutboxRetries {
  import opened Options
  import opened Outbox

  // ----- Attempts before a row fails -----

  /** No permanent answer is written to the row. */
  predicate NeverPermanent(acts: seq<Action>, id: nat) {
    forall i :: 0 <= i < |acts| && acts[i].Write? && acts[i].h.id == id ==> !acts[i].result.Permanent?
  }

  predicate TriedEnough(rows: seq<Row>, id: nat) {
    id < |rows| && rows[id].failedAt.Some? ==> rows[id].attempts >= 8
  }

  lemma TriedWrite(s: State, h: Hold, result: SendResult, cancelled: bool, id: nat)
    requires HoldsBehind(s) && TriedEnough(s.rows, id) && h in s.holds && (h.id == id ==> !result.Permanent?)
    ensures TriedEnough(WriteStep(s, h, result, cancelled).rows, id)
  {
    assert h.attempts <= s.rows[h.id].attempts;
  }

  lemma {:induction false} TriedRun(s: State, acts: seq<Action>, id: nat)
    requires HoldsBehind(s) && TriedEnough(s.rows, id) && NeverPermanent(acts, id)
    ensures TriedEnough(Run(s, acts).rows, id)
    decreases |acts|
  {
    if acts != [] {
      var a := acts[0];
      if a.Claim? {
        BehindClaim(s, a.worker, a.limit, a.busy);
      } else if a.Write? && a.h in s.holds {
        TriedWrite(s, a.h, a.result, a.cancelled, id);
      }
      TriedRun(Step(s, a), acts[1..], id);
    }
  }

  /**
   In every run, late writes included: a row that no permanent answer was written to has failed only after eight
   attempts; when all writes are prompt, after exactly eight.
   */
  lemma NotGivenUpEarly(acts: seq<Action>, id: nat)
    requires NeverPermanent(acts, id) && id < |Run(Init(), acts).rows| && Run(Init(), acts).rows[id].failedAt.Some?
    ensures Run(Init(), acts).rows[id].attempts >= 8
    ensures PromptRun(Init(), acts) ==> Run(Init(), acts).rows[id].attempts == 8
  {
    TriedRun(Init(), acts, id);
    if PromptRun(Init(), acts) {
      RetryBudget(acts, id);
    }
  }

  /** A transient answer fails the row exactly on the eighth attempt that its worker counts, a permanent one at once. */
  lemma FailsOnEighth(r: Row, attempts: nat, now: int, result: SendResult, cancelled: bool)
    requires !Terminal(r)
    ensures var r' := WrittenRow(r, attempts, now, result, cancelled);
            && (r'.failedAt.Some? <==> result.Permanent? || (result.Transient? && attempts >= 7))
            && (r'.sentAt.Some? <==> result.Delivered?)
            && r'.attempts == (if result.Delivered? then r.attempts else r.attempts + 1) && r'.lockedAt.None?
  {
  }

  // ----- How long a retry waits -----

  /** Two to the power n, for the seven retries. */
  const SECONDS: seq<int> := [1, 2, 4, 8, 16, 32, 64]

  lemma BackoffTable(attempts: nat)
    requires attempts < 7
    ensures Backoff(attempts, false) == 1000 * SECONDS[attempts] && Backoff(attempts, true) == 0
  {
    assert Pow2(0) == 1 && Pow2(1) == 2 && Pow2(2) == 4 && Pow2(3) == 8;
    assert Pow2(4) == 16 && Pow2(5) == 32 && Pow2(6) == 64;
  }

  /** At any attempt, also one that is never made: doubling from one second, and five minutes at most. */
  lemma BackoffAt(attempt: int)
    ensures RetryBackoff(attempt)
            == if attempt <= 1 then 1_000
               else if attempt <= 7 then 1000 * SECONDS[attempt - 1]
               else if attempt == 8 then 128_000
               else if attempt == 9 then 256_000
               else 300_000
  {
    assert Pow2(0) == 1 && Pow2(1) == 2 && Pow2(2) == 4 && Pow2(3) == 8;
    assert Pow2(4) == 16 && Pow2(5) == 32 && Pow2(6) == 64 && Pow2(7) == 128;
    assert Pow2(8) == 256 && Pow2(9) == 512;
  }

  predicate NeverWritten(acts: seq<Action>, id: nat) {
    forall i :: 0 <= i < |acts| && acts[i].Write? ==> acts[i].h.id != id
  }

  /** Until somebody writes the row, nothing changes when it is due. */
  lemma {:induction false} DueStays(s: State, acts: seq<Action>, id: nat)
    requires id < |s.rows| && NeverWritten(acts, id)
    ensures id < |Run(s, acts).rows| && Run(s, acts).rows[id].availableAt == s.rows[id].availableAt
    ensures forall h :: h in Run(s, acts).holds && h.id == id && h !in s.holds ==> h.claimedAt >= s.rows[id].availableAt
    decreases |acts|
  {
    if acts != [] {
      DueStep(s, acts[0], id);
      DueStays(Step(s, acts[0]), acts[1..], id);
    }
  }

  lemma DueStep(s: State, a: Action, id: nat)
    requires id < |s.rows| && (a.Write? ==> a.h.id != id)
    ensures id < |Step(s, a).rows| && Step(s, a).rows[id].availableAt == s.rows[id].availableAt
    ensures forall h :: h in Step(s, a).holds && h.id == id && h !in s.holds ==> h.claimedAt >= s.rows[id].availableAt
  {
  }

  /**
   A retry written after n earlier attempts, and not by a worker that is shutting down, is due 2^n seconds later, and
   until somebody writes the row again nobody gets it before that.
   */
  lemma RetryWaits(s: State, h: Hold, message: string, acts: seq<Action>, k: Hold)
    requires h in s.holds && h.id < |s.rows| == |s.delays| && h.attempts < 7 && NeverWritten(acts, h.id)
    requires var s' := Step(s, Write(h, Transient(message), false));
             k in Run(s', acts).holds && k.id == h.id && k !in s'.holds
    ensures Step(s, Write(h, Transient(message), false)).rows[h.id].availableAt == s.now + 1000 * SECONDS[h.attempts]
    ensures k.claimedAt >= s.now + 1000 * SECONDS[h.attempts]
  {
    BackoffTable(h.attempts);
    DueStays(Step(s, Write(h, Transient(message), false)), acts, h.id);
  }

  /** A row handed back by a worker that is shutting down is due at once. */
  lemma CancelledRetryIsDue(s: State, h: Hold, message: string)
    requires h in s.holds && h.id < |s.rows| == |s.delays| && h.attempts < 7 && !Terminal(s.rows[h.id])
    ensures var s' := Step(s, Write(h, Transient(message), true)); Claimable(s'.rows[h.id], s'.now)
  {
  }

  // ----- What counts as sent -----

  /** A device counts as reached without asking the provider exactly when its presence was read and it is online. */
  lemma SentMeansOnlineOrAccepted(r: Row, attempts: nat, now: int, presence: Presence, next: SendResult,
                                  cancelled: bool)
    requires r.sentAt.None?
    ensures WrittenRow(r, attempts, now, OfflineOnly(presence, next), cancelled).sentAt.Some?
            <==> presence == Online || next == Delivered
    ensures presence != Online ==> OfflineOnly(presence, next) == next
  {
  }

  // ----- Leases and messages -----

  /** A row can be claimed exactly when it is unfinished, due, and not locked within the last five minutes. */
  lemma ClaimableMeans(r: Row, now: int)
    ensures Claimable(r, now)
            <==> && r.sentAt.None? && r.failedAt.None? && r.availableAt <= now
                 && (r.lockedAt.Some? ==> r.lockedAt.value < now - 300_000)
  {
  }

  ghost predicate ErrorsShort(rows: seq<Row>) {
    forall i :: 0 <= i < |rows| && rows[i].lastError.Some? ==> |rows[i].lastError.value| <= 2000
  }

  lemma {:induction false} ErrorsRun(s: State, acts: seq<Action>)
    requires ErrorsShort(s.rows)
    ensures ErrorsShort(Run(s, acts).rows)
    decreases |acts|
  {
    if acts != [] {
      ErrorsRun(Step(s, acts[0]), acts[1..]);
    }
  }

  /**
   In every run at most 2000 characters of an error are kept; of a failed delivery, its beginning; and none once the
   row is sent. Either way the row is unlocked.
   */
  lemma ErrorKept(acts: seq<Action>, id: nat, h: Hold, result: SendResult, cancelled: bool)
    requires var s := Run(Init(), acts);
             id < |s.rows| == |s.delays| && h in s.holds && h.id == id
    ensures var s := Run(Init(), acts);
            && (s.rows[id].lastError.Some? ==> |s.rows[id].lastError.value| <= 2000)
            && var r := Step(s, Write(h, result, cancelled)).rows[id];
               && r.lockedAt == None
               && (result.Delivered? ==> r.lastError == None && r.sentAt == Some(s.now))
               && (!result.Delivered? ==>
                     && r.lastError.Some? && r.lastError.value <= result.message
                     && (|result.message| <= 2000 ==> r.lastError.value == result.message))
  {
    ErrorsRun(Init(), acts);
  }
}
