/**
 Who holds a lease on an outbox row when workers are late: exactly which writes let a second worker in, which
 runs stay exclusive, and at what pace a worker that claims whole batches is never late.
 */
module OutboxLeases {
  import opened Options
  import opened Outbox
  import OutboxWorker

  // ----- When a write lets a second worker in -----

  /** Two live leases on one row. */
  ghost predicate Doubled(s: State, id: nat) {
    exists g, k :: g in s.holds && k in s.holds && g.id == k.id == id && g != k && Fresh(g, s.now) && Fresh(k, s.now)
  }

  /** A claim `ms` later. */
  function ClaimLater(s: State, ms: nat, worker: nat, limit: int, busy: set<nat>): State {
    Step(Step(s, Tick(ms)), Claim(worker, limit, busy))
  }

  /** At some later moment some claim gives a second live lease on the row. */
  ghost predicate LetsSecondIn(s: State, id: nat) {
    exists ms: nat, worker: nat, limit: int, busy: set<nat> :: SecondIn(s, id, ms, worker, limit, busy)
  }

  ghost predicate SecondIn(s: State, id: nat, ms: nat, worker: nat, limit: int, busy: set<nat>) {
    Doubled(ClaimLater(s, ms, worker, limit, busy), id)
  }

  /** A non-final retry of an unfinished row, beside another's live lease that outlasts the delay it schedules. */
  ghost predicate UnlocksUnder(s: State, h: Hold, result: SendResult, cancelled: bool)
    requires h.id < |s.rows|
  {
    && !Terminal(s.rows[h.id]) && !result.Delivered? && !FinalAttempt(h.attempts, result)
    && exists g :: Outlasts(s, g, h, Backoff(h.attempts, cancelled))
  }

  predicate Outlasts(s: State, g: Hold, h: Hold, delay: nat) {
    g in s.holds && g != h && g.id == h.id && Fresh(g, s.now + delay)
  }

  lemma ClaimAddsClaimable(s: State, worker: nat, limit: int, busy: set<nat>, g: Hold)
    requires g in Step(s, Claim(worker, limit, busy)).holds && g !in s.holds
    ensures g.id < |s.rows| && Claimable(s.rows[g.id], s.now) && g.claimedAt == s.now
    ensures forall k :: k in Step(s, Claim(worker, limit, busy)).holds && k !in s.holds && k.id == g.id ==> k == g
  {
    var picked := Pick(s.rows, 0, s.now, busy, BatchLimit(limit));
    assert g.id in picked;
  }

  /** Two live leases on one row after a later claim: one was there, the other is the claim's. */
  lemma SecondIsNew(s: State, id: nat, ms: nat, worker: nat, limit: int, busy: set<nat>) returns (g: Hold)
    requires OneHolder(s) && SecondIn(s, id, ms, worker, limit, busy)
    ensures g in s.holds && g.id == id && Fresh(g, s.now + ms) && id < |s.rows| && Claimable(s.rows[id], s.now + ms)
  {
    var s1 := Step(s, Tick(ms));
    var s2 := ClaimLater(s, ms, worker, limit, busy);
    var a, b := TwoOn(s2, id);
    TickKeepsOne(s, ms);
    g := OldOf(s1, worker, limit, busy, a, b);
  }

  lemma TwoOn(s: State, id: nat) returns (a: Hold, b: Hold)
    requires Doubled(s, id)
    ensures a in s.holds && b in s.holds && a.id == b.id == id && a != b && Fresh(a, s.now) && Fresh(b, s.now)
  {
    a, b :| a in s.holds && b in s.holds && a.id == b.id == id && a != b && Fresh(a, s.now) && Fresh(b, s.now);
  }

  lemma TickKeepsOne(s: State, ms: nat)
    requires OneHolder(s)
    ensures OneHolder(Step(s, Tick(ms)))
  {
  }

  lemma OldOf(s: State, worker: nat, limit: int, busy: set<nat>, a: Hold, b: Hold) returns (g: Hold)
    requires OneHolder(s) && a.id == b.id && Fresh(a, s.now) && Fresh(b, s.now) && a != b
    requires a in Step(s, Claim(worker, limit, busy)).holds && b in Step(s, Claim(worker, limit, busy)).holds
    ensures g in {a, b} && g in s.holds && g.id < |s.rows| && Claimable(s.rows[g.id], s.now)
  {
    if a in s.holds {
      ClaimAddsClaimable(s, worker, limit, busy, b);
      g := a;
    } else {
      ClaimAddsClaimable(s, worker, limit, busy, a);
      g := b;
    }
  }

  lemma LetInUnlocks(s: State, h: Hold, result: SendResult, cancelled: bool)
    requires OneHolder(s) && h in s.holds && h.id < |s.rows| == |s.delays|
    requires LetsSecondIn(WriteStep(s, h, result, cancelled), h.id)
    ensures UnlocksUnder(s, h, result, cancelled)
  {
    var s' := WriteStep(s, h, result, cancelled);
    var ms: nat, worker: nat, limit: int, busy: set<nat> :| SecondIn(s', h.id, ms, worker, limit, busy);
    WriteKeepsOne(s, h, result, cancelled);
    var g := SecondIsNew(s', h.id, ms, worker, limit, busy);
    assert Outlasts(s, g, h, Backoff(h.attempts, cancelled));
  }

  lemma WriteKeepsOne(s: State, h: Hold, result: SendResult, cancelled: bool)
    requires OneHolder(s) && h.id < |s.rows| == |s.delays|
    ensures OneHolder(WriteStep(s, h, result, cancelled))
  {
  }

  lemma UnlockLetsIn(s: State, h: Hold, result: SendResult, cancelled: bool)
    requires h in s.holds && h.id < |s.rows| == |s.delays| && UnlocksUnder(s, h, result, cancelled)
    ensures LetsSecondIn(WriteStep(s, h, result, cancelled), h.id)
  {
    var delay := Backoff(h.attempts, cancelled);
    var g :| Outlasts(s, g, h, delay);
    var s' := WriteStep(s, h, result, cancelled);
    ClaimsBeside(s', delay, g);
    assert SecondIn(s', h.id, delay, g.worker + 1, g.id + 1, {});
  }

  lemma ClaimsBeside(s: State, ms: nat, g: Hold)
    requires g in s.holds && Fresh(g, s.now + ms) && g.id < |s.rows| && Claimable(s.rows[g.id], s.now + ms)
    ensures Doubled(ClaimLater(s, ms, g.worker + 1, g.id + 1, {}), g.id)
  {
    var s1 := Step(s, Tick(ms));
    EligibleAtMost(s1.rows, 0, g.id, s1.now, {});
    PickExact(s1.rows, 0, s1.now, {}, BatchLimit(g.id + 1), g.id);
    var k := Hold(g.worker + 1, g.id, s1.rows[g.id].attempts, s1.now);
    var s2 := ClaimLater(s, ms, g.worker + 1, g.id + 1, {});
    assert k in s2.holds && g in s2.holds && Fresh(g, s2.now) && Fresh(k, s2.now) && k != g;
  }

  lemma {:induction false} EligibleAtMost(rows: seq<Row>, i: nat, id: nat, now: int, busy: set<nat>)
    requires i <= id <= |rows|
    ensures EligibleBefore(rows, i, id, now, busy) <= id - i
    decreases id - i
  {
    if i < id {
      EligibleAtMost(rows, i + 1, id, now, busy);
    }
  }

  /**
   In every state that has kept leases exclusive so far, whatever other late writes have done to the rows, a write lets
   a second worker in on its row, now or later, if and only if it is a non-final retry of an unfinished row on which
   another worker's live lease lasts beyond the delay that the retry schedules.
   */
  lemma LetsInIffUnlocksUnder(s: State, h: Hold, result: SendResult, cancelled: bool)
    requires OneHolder(s) && h in s.holds && h.id < |s.rows| == |s.delays|
    ensures LetsSecondIn(WriteStep(s, h, result, cancelled), h.id) <==> UnlocksUnder(s, h, result, cancelled)
  {
    if UnlocksUnder(s, h, result, cancelled) {
      UnlockLetsIn(s, h, result, cancelled);
    } else if LetsSecondIn(WriteStep(s, h, result, cancelled), h.id) {
      LetInUnlocks(s, h, result, cancelled);
      assert false;
    }
  }

  // ----- Runs without such a write -----

  predicate Unlocking(s: State, a: Action, h: Hold) {
    a.Write? && a.h == h && h in s.holds && h.id < |s.rows|
  }

  ghost predicate NoneUnlocks(s: State, acts: seq<Action>)
    decreases |acts|
  {
    acts != [] ==>
      && (acts[0].Write? && Unlocking(s, acts[0], acts[0].h) ==>
            !UnlocksUnder(s, acts[0].h, acts[0].result, acts[0].cancelled))
      && NoneUnlocks(Step(s, acts[0]), acts[1..])
  }

  /** Nobody can claim the row while the lease is live: it is finished, locked by it, or not due before its end. */
  predicate Guarded(r: Row, g: Hold) {
    Terminal(r) || r.lockedAt == Some(g.claimedAt) || r.availableAt > g.claimedAt + LEASE
  }

  ghost predicate LeasesGuarded(s: State) {
    && |s.delays| == |s.rows|
    && forall g :: g in s.holds ==> g.id < |s.rows| && (Fresh(g, s.now) ==> Guarded(s.rows[g.id], g))
  }

  lemma GuardedClaim(s: State, worker: nat, limit: int, busy: set<nat>)
    requires OneHolder(s) && LeasesGuarded(s)
    ensures OneHolder(Step(s, Claim(worker, limit, busy))) && LeasesGuarded(Step(s, Claim(worker, limit, busy)))
  {
    var picked := Pick(s.rows, 0, s.now, busy, BatchLimit(limit));
    var s' := Step(s, Claim(worker, limit, busy));
    forall h | h in s'.holds
      ensures h in s.holds || (h.id in picked && h == Hold(worker, h.id, s.rows[h.id].attempts, s.now))
      ensures h in s.holds && Fresh(h, s.now) ==> h.id !in picked
    {
    }
  }

  lemma GuardedWrite(s: State, h: Hold, result: SendResult, cancelled: bool)
    requires OneHolder(s) && LeasesGuarded(s) && h in s.holds && !UnlocksUnder(s, h, result, cancelled)
    ensures OneHolder(WriteStep(s, h, result, cancelled)) && LeasesGuarded(WriteStep(s, h, result, cancelled))
  {
    var s' := WriteStep(s, h, result, cancelled);
    forall g | g in s'.holds && Fresh(g, s'.now) ensures Guarded(s'.rows[g.id], g) {
      assert Guarded(s.rows[g.id], g);
      if g.id == h.id && !Terminal(s'.rows[g.id]) {
        assert !Outlasts(s, g, h, Backoff(h.attempts, cancelled));
      }
    }
  }

  lemma {:induction false} GuardedRun(s: State, acts: seq<Action>)
    requires OneHolder(s) && LeasesGuarded(s) && NoneUnlocks(s, acts)
    ensures OneHolder(Run(s, acts)) && LeasesGuarded(Run(s, acts))
    decreases |acts|
  {
    if acts != [] {
      var a := acts[0];
      if a.Claim? {
        GuardedClaim(s, a.worker, a.limit, a.busy);
      } else if a.Write? && a.h in s.holds {
        assert Unlocking(s, a, a.h);
        GuardedWrite(s, a.h, a.result, a.cancelled);
      }
      GuardedRun(Step(s, a), acts[1..]);
    }
  }

  /**
   Every run without such a write keeps leases exclusive, however late its other writes are. So a second live lease
   has one cause only.
   */
  lemma ExclusiveUntilUnlocked(acts: seq<Action>, g: Hold, k: Hold)
    requires NoneUnlocks(Init(), acts)
    requires var s := Run(Init(), acts);
             g in s.holds && k in s.holds && g.id == k.id && Fresh(g, s.now) && Fresh(k, s.now)
    ensures g == k
  {
    GuardedRun(Init(), acts);
  }

  // ----- The pace at which nobody is late -----

  /** How a worker proceeds with its latest batch: when it claimed it, how many writes it made, and when the last. */
  datatype Progress = Progress(claimedAt: int, written: nat, at: int)

  function HoldsOf(s: State, worker: nat): set<Hold> {
    set h | h in s.holds && h.worker == worker
  }

  function Noted(s: State, a: Action, log: map<nat, Progress>): map<nat, Progress> {
    if a.Claim? then log[a.worker := Progress(s.now, 0, s.now)]
    else if a.Write? && a.h in s.holds && a.h.worker in log then
      log[a.h.worker := Progress(log[a.h.worker].claimedAt, log[a.h.worker].written + 1, s.now)]
    else log
  }

  /** A worker claims 50 rows when it is through with the last, and writes within `pace` of the claim or last write. */
  ghost predicate Steady(s: State, a: Action, log: map<nat, Progress>, pace: nat) {
    match a
    case Claim(worker, limit, _) => BatchLimit(limit) == BATCH_SIZE && HoldsOf(s, worker) == {}
    case Write(h, _, _) => h in s.holds && h.worker in log ==> s.now <= log[h.worker].at + pace
    case _ => true
  }

  /** Any number of such workers, interleaved in any way. */
  ghost predicate SteadyRun(s: State, acts: seq<Action>, log: map<nat, Progress>, pace: nat)
    decreases |acts|
  {
    acts != [] ==>
      Steady(s, acts[0], log, pace) && SteadyRun(Step(s, acts[0]), acts[1..], Noted(s, acts[0], log), pace)
  }

  ghost predicate OnPace(s: State, worker: nat, p: Progress, pace: nat) {
    && p.at <= p.claimedAt + p.written * pace
    && |HoldsOf(s, worker)| + p.written <= BATCH_SIZE
  }

  ghost predicate AllOnPace(s: State, log: map<nat, Progress>, pace: nat) {
    && (forall h :: h in s.holds ==> h.worker in log && h.claimedAt == log[h.worker].claimedAt)
    && forall worker :: worker in log ==> OnPace(s, worker, log[worker], pace)
  }

  lemma SteadyIsPrompt(s: State, a: Action, log: map<nat, Progress>, pace: nat)
    requires AllOnPace(s, log, pace) && Steady(s, a, log, pace) && BATCH_SIZE * pace <= LEASE
    ensures Prompt(s, a)
  {
    if a.Write? && a.h in s.holds {
      var p := log[a.h.worker];
      assert OnPace(s, a.h.worker, p, pace) && a.h in HoldsOf(s, a.h.worker);
      assert p.written * pace + pace == (p.written + 1) * pace;
      OutboxWorker.TimesGrows(p.written + 1, BATCH_SIZE, pace);
    }
  }

  lemma FewerHolds(s: State, s': State, worker: nat)
    requires HoldsOf(s', worker) <= HoldsOf(s, worker)
    ensures |HoldsOf(s', worker)| <= |HoldsOf(s, worker)|
  {
    Subset(HoldsOf(s', worker), HoldsOf(s, worker));
  }

  lemma {:induction false} Subset(a: set<Hold>, b: set<Hold>)
    requires a <= b
    ensures |a| <= |b|
  {
    assert b == a + (b - a);
  }

  lemma {:induction false} BatchHolds(s: State, worker: nat, picked: seq<nat>)
    requires forall k :: 0 <= k < |picked| ==> picked[k] < |s.rows|
    ensures |Claimed(s, worker, picked)| <= |picked|
    decreases |picked|
  {
    if picked != [] {
      var n := |picked| - 1;
      var last := Hold(worker, picked[n], s.rows[picked[n]].attempts, s.now);
      BatchHolds(s, worker, picked[..n]);
      assert Claimed(s, worker, picked) <= Claimed(s, worker, picked[..n]) + {last};
      Subset(Claimed(s, worker, picked), Claimed(s, worker, picked[..n]) + {last});
    }
  }

  /** A claim by a worker with nothing in hand gives it exactly the batch, and nobody else anything. */
  lemma ClaimHolds(s: State, worker: nat, limit: int, busy: set<nat>, w: nat)
    requires HoldsOf(s, worker) == {}
    ensures var s' := Step(s, Claim(worker, limit, busy));
            HoldsOf(s', w) == if w == worker then Claimed(s, worker, Pick(s.rows, 0, s.now, busy, BatchLimit(limit)))
                              else HoldsOf(s, w)
  {
    var s' := Step(s, Claim(worker, limit, busy));
    var claimed := Claimed(s, worker, Pick(s.rows, 0, s.now, busy, BatchLimit(limit)));
    assert s'.holds == s.holds + claimed;
    forall h | h in s.holds && h.worker == worker ensures h in HoldsOf(s, worker) {
    }
  }

  lemma ClaimStarts(s: State, worker: nat, limit: int, busy: set<nat>, pace: nat)
    requires HoldsOf(s, worker) == {} && BatchLimit(limit) == BATCH_SIZE
    ensures OnPace(Step(s, Claim(worker, limit, busy)), worker, Progress(s.now, 0, s.now), pace)
  {
    ClaimHolds(s, worker, limit, busy, worker);
    BatchHolds(s, worker, Pick(s.rows, 0, s.now, busy, BatchLimit(limit)));
  }

  lemma ClaimOwners(s: State, worker: nat, limit: int, busy: set<nat>, h: Hold)
    requires HoldsOf(s, worker) == {} && h in Step(s, Claim(worker, limit, busy)).holds
    ensures if h.worker == worker then h.claimedAt == s.now else h in s.holds
  {
    ClaimHolds(s, worker, limit, busy, worker);
    if h.worker == worker {
      assert h in HoldsOf(Step(s, Claim(worker, limit, busy)), worker);
    }
  }

  lemma ClaimOnPace(s: State, worker: nat, limit: int, busy: set<nat>, log: map<nat, Progress>, pace: nat)
    requires AllOnPace(s, log, pace) && Steady(s, Claim(worker, limit, busy), log, pace)
    ensures AllOnPace(Step(s, Claim(worker, limit, busy)), Noted(s, Claim(worker, limit, busy), log), pace)
  {
    var s' := Step(s, Claim(worker, limit, busy));
    var log' := log[worker := Progress(s.now, 0, s.now)];
    forall w | w in log' ensures OnPace(s', w, log'[w], pace) {
      if w == worker {
        ClaimStarts(s, worker, limit, busy, pace);
      } else {
        assert OnPace(s, w, log[w], pace);
        ClaimHolds(s, worker, limit, busy, w);
      }
    }
    forall h | h in s'.holds ensures h.worker in log' && h.claimedAt == log'[h.worker].claimedAt {
      ClaimOwners(s, worker, limit, busy, h);
    }
  }

  lemma WriteOnPace(s: State, a: Action, log: map<nat, Progress>, pace: nat)
    requires AllOnPace(s, log, pace) && Steady(s, a, log, pace) && a.Write? && a.h in s.holds
    requires a.h.id < |s.rows| == |s.delays|
    ensures AllOnPace(Step(s, a), Noted(s, a, log), pace)
  {
    var s' := Step(s, a);
    var worker := a.h.worker;
    var p := log[worker];
    assert OnPace(s, worker, p, pace) && HoldsOf(s', worker) == HoldsOf(s, worker) - {a.h};
    assert a.h in HoldsOf(s, worker) && p.written * pace + pace == (p.written + 1) * pace;
    forall w | w in log && w != worker ensures OnPace(s', w, log[w], pace) {
      assert OnPace(s, w, log[w], pace) && HoldsOf(s', w) == HoldsOf(s, w);
    }
  }

  lemma OtherOnPace(s: State, a: Action, log: map<nat, Progress>, pace: nat)
    requires AllOnPace(s, log, pace) && !a.Claim? && !(a.Write? && a.h in s.holds)
    ensures AllOnPace(Step(s, a), Noted(s, a, log), pace)
  {
    var s' := Step(s, a);
    forall w | w in log ensures OnPace(s', w, log[w], pace) {
      assert OnPace(s, w, log[w], pace);
      FewerHolds(s, s', w);
    }
  }

  lemma {:induction false} SteadyRunPrompt(s: State, acts: seq<Action>, log: map<nat, Progress>, pace: nat)
    requires AllOnPace(s, log, pace) && HoldsBehind(s) && SteadyRun(s, acts, log, pace) && BATCH_SIZE * pace <= LEASE
    ensures PromptRun(s, acts)
    decreases |acts|
  {
    if acts != [] {
      var a := acts[0];
      SteadyIsPrompt(s, a, log, pace);
      if a.Claim? {
        ClaimOnPace(s, a.worker, a.limit, a.busy, log, pace);
        BehindClaim(s, a.worker, a.limit, a.busy);
      } else if a.Write? && a.h in s.holds {
        WriteOnPace(s, a, log, pace);
      } else {
        OtherOnPace(s, a, log, pace);
      }
      SteadyRunPrompt(Step(s, a), acts[1..], Noted(s, a, log), pace);
    }
  }

  /**
   Any number of workers, each claiming batches of 50 one after the other and writing at most six seconds after its
   claim or its previous write, are prompt in every interleaving: leases are exclusive and the retry budget holds.
   */
  lemma SteadyWorkersArePrompt(acts: seq<Action>, pace: nat, id: nat)
    requires SteadyRun(Init(), acts, map[], pace) && pace <= 6000 && id < |Run(Init(), acts).rows|
    ensures PromptRun(Init(), acts)
    ensures var s := Run(Init(), acts);
            && OneHolder(s)
            && (s.rows[id].failedAt.None? ==> s.rows[id].attempts <= 7)
            && (s.rows[id].failedAt.Some? ==> s.rows[id].attempts <= 8 && s.rows[id].sentAt.None?)
            && |s.delays| == |s.rows| && s.delays[id] <= 127_000
  {
    SteadyRunPrompt(Init(), acts, map[], pace);
    InvRun(Init(), acts);
    RetryBudget(acts, id);
  }
}
