/**
 Cross-replica retry coordination for one storage key: a result record and an
 owner-tagged lock in Redis, and any number of requests on any number of
 replicas that drive the protocol one Redis command at a time.

 The history fields of `State` (`acquired`, `commits`, `runs`) are never read by
 a decision of the protocol.
 */
module RedisIdempotency {
  import opened Options

  const LOCK_TTL: nat := 60_000        // milliseconds
  const RESULT_TTL: nat := 86_400_000  // 24 hours, in milliseconds
  const SERVER_ERROR: int := 500

  type CallerId = nat
  type Owner = nat

  datatype Response = Response(status: int, header: map<string, seq<string>>, body: seq<bv8>)
  datatype Record = Record(fingerprint: string, response: Response)
  datatype Lock = Lock(fingerprint: string, owner: Owner)
  datatype Key<T> = Missing | Held(value: T, expiresAt: nat)

  datatype Outcome =
    | Led(response: Response)
    | Replayed(record: Record)
    | Conflict
    | Unavailable
    | Crashed

  /** Where one request is between two Redis commands. */
  datatype Phase =
    | Reading(fingerprint: string)                      // about to GET the result
    | Missed(fingerprint: string, commitsSeen: nat)     // GET missed; about to SETNX
    | Blocked(fingerprint: string)                      // SETNX lost; about to GET the lock
    | Waiting(fingerprint: string)                      // same request in flight; pausing
    | Running(lock: Lock, since: nat)                   // won SETNX at `since`; handler runs
    | Answered(lock: Lock, since: nat, response: Response)  // handler returned; nothing settled
    | Done(fingerprint: string, outcome: Outcome)

  /** A handler run that returned. `liveUntil` is set when its commit takes effect. */
  datatype HandlerRun = HandlerRun(record: Record, since: nat, liveUntil: Option<nat>)

  datatype State = State(
    now: nat,
    lock: Key<Lock>,
    result: Key<Record>,
    callers: map<CallerId, Phase>,
    issued: set<Owner>,
    acquired: seq<CallerId>,
    commits: nat,
    runs: map<CallerId, HandlerRun>)

  datatype Action =
    | Arrive(c: CallerId, fingerprint: string)
    | Tick(ms: nat)
    | GetResult(c: CallerId)
    | SetNX(c: CallerId, owner: Owner)
    | SetNXUnanswered(c: CallerId, owner: Owner)  // applied, but the reply was lost
    | GetLock(c: CallerId)
    | Resume(c: CallerId)
    | GiveUp(c: CallerId)                         // Redis error or cancelled request
    | Finish(c: CallerId, response: Response)
    | Settle(c: CallerId)                         // commit or release script
    | SettleLost(c: CallerId)                     // the script never reached Redis
    | Crash(c: CallerId)

  predicate Live<T>(k: Key<T>, now: nat) {
    k.Held? && now < k.expiresAt
  }

  predicate Active(p: Phase) {
    p.Running? || p.Answered?
  }

  predicate Acquiring(p: Phase) {
    p.Reading? || p.Missed? || p.Blocked? || p.Waiting?
  }

  predicate Succeeded(r: Response) {
    r.status < SERVER_ERROR
  }

  function Init(): State {
    State(0, Missing, Missing, map[], {}, [], 0, map[])
  }

  function Move(s: State, c: CallerId, p: Phase): State {
    s.(callers := s.callers[c := p])
  }

  /** True when `a` is a SETNX that Redis answers with "acquired" or that it applied silently. */
  predicate Wins(s: State, c: CallerId, owner: Owner) {
    && c in s.callers && s.callers[c].Missed?
    && owner !in s.issued
    && !Live(s.lock, s.now)
  }

  function TakeLock(s: State, c: CallerId, owner: Owner): State
    requires Wins(s, c, owner)
  {
    s.(lock := Held(Lock(s.callers[c].fingerprint, owner), s.now + LOCK_TTL),
       issued := s.issued + {owner},
       acquired := s.acquired + [c])
  }

  function GetResultStep(s: State, c: CallerId): State
    requires c in s.callers && s.callers[c].Reading?
  {
    var fp := s.callers[c].fingerprint;
    if !Live(s.result, s.now) then Move(s, c, Missed(fp, s.commits))
    else if s.result.value.fingerprint != fp then Move(s, c, Done(fp, Conflict))
    else Move(s, c, Done(fp, Replayed(s.result.value)))
  }

  function SetNXStep(s: State, c: CallerId, owner: Owner): State
    requires c in s.callers && s.callers[c].Missed? && owner !in s.issued
  {
    var fp := s.callers[c].fingerprint;
    if Wins(s, c, owner) then Move(TakeLock(s, c, owner), c, Running(Lock(fp, owner), s.now))
    else Move(s, c, Blocked(fp)).(issued := s.issued + {owner})
  }

  function GetLockStep(s: State, c: CallerId): State
    requires c in s.callers && s.callers[c].Blocked?
  {
    var fp := s.callers[c].fingerprint;
    if !Live(s.lock, s.now) then Move(s, c, Reading(fp))
    else if s.lock.value.fingerprint != fp then Move(s, c, Done(fp, Conflict))
    else Move(s, c, Waiting(fp))
  }

  function FinishStep(s: State, c: CallerId, response: Response): State
    requires c in s.callers && s.callers[c].Running?
  {
    var p := s.callers[c];
    Move(s, c, Answered(p.lock, p.since, response))
      .(runs := s.runs[c := HandlerRun(Record(p.lock.fingerprint, response), p.since, None)])
  }

  /** The lock still stores exactly this caller's value. */
  predicate Owns(s: State, lock: Lock) {
    Live(s.lock, s.now) && s.lock.value == lock
  }

  /** The commit script below 500, the release script otherwise; then the answer is written. */
  function SettleStep(s: State, c: CallerId): State
    requires c in s.callers && s.callers[c].Answered?
  {
    var p := s.callers[c];
    var s' := Move(s, c, Done(p.lock.fingerprint, Led(p.response)));
    if !Owns(s, p.lock) then s'
    else if !Succeeded(p.response) then s'.(lock := Missing)
    else
      var record := Record(p.lock.fingerprint, p.response);
      s'.(result := Held(record, s.now + RESULT_TTL),
          lock := Missing,
          commits := s.commits + 1,
          runs := s.runs[c := HandlerRun(record, p.since, Some(s.now + RESULT_TTL))])
  }

  /** One atomic step; an action that does not apply leaves the state alone. */
  function Step(s: State, a: Action): State {
    match a
    case Arrive(c, fp) => if c in s.callers then s else Move(s, c, Reading(fp))
    case Tick(ms) => s.(now := s.now + ms)
    case GetResult(c) => if c in s.callers && s.callers[c].Reading? then GetResultStep(s, c) else s
    case SetNX(c, owner) =>
      if c in s.callers && s.callers[c].Missed? && owner !in s.issued then SetNXStep(s, c, owner) else s
    case SetNXUnanswered(c, owner) =>
      if Wins(s, c, owner)
      then Move(TakeLock(s, c, owner), c, Done(s.callers[c].fingerprint, Unavailable))
      else s
    case GetLock(c) => if c in s.callers && s.callers[c].Blocked? then GetLockStep(s, c) else s
    case Resume(c) =>
      if c in s.callers && s.callers[c].Waiting? then Move(s, c, Reading(s.callers[c].fingerprint)) else s
    case GiveUp(c) =>
      if c in s.callers && Acquiring(s.callers[c])
      then Move(s, c, Done(s.callers[c].fingerprint, Unavailable)) else s
    case Finish(c, response) =>
      if c in s.callers && s.callers[c].Running? then FinishStep(s, c, response) else s
    case Settle(c) => if c in s.callers && s.callers[c].Answered? then SettleStep(s, c) else s
    case SettleLost(c) =>
      if c in s.callers && s.callers[c].Answered?
      then Move(s, c, Done(s.callers[c].lock.fingerprint, Led(s.callers[c].response))) else s
    case Crash(c) =>
      if c in s.callers && Active(s.callers[c])
      then Move(s, c, Done(s.callers[c].lock.fingerprint, Crashed)) else s
  }

  function Run(s: State, acts: seq<Action>): State
    decreases |acts|
  {
    if acts == [] then s else Run(Step(s, acts[0]), acts[1..])
  }

  // ----- What every run keeps, with no assumption about timing -----

  ghost predicate Produced(runs: map<CallerId, HandlerRun>, record: Record) {
    exists c :: c in runs && runs[c].record == record && Succeeded(record.response)
  }

  ghost predicate OwnersDistinct(s: State) {
    && (forall c :: c in s.callers && Active(s.callers[c]) ==> s.callers[c].lock.owner in s.issued)
    && (forall c, d :: c in s.callers && d in s.callers && c != d
                       && Active(s.callers[c]) && Active(s.callers[d])
                       ==> s.callers[c].lock.owner != s.callers[d].lock.owner)
  }

  /** A stored lock carries the last winner's value and expiry, and nobody else's. */
  ghost predicate LockIsLastWinners(s: State) {
    s.lock.Held? ==>
      && s.lock.value.owner in s.issued
      && forall c :: c in s.callers && Active(s.callers[c]) && s.callers[c].lock.owner == s.lock.value.owner ==>
                       && s.callers[c].lock == s.lock.value
                       && s.lock.expiresAt == s.callers[c].since + LOCK_TTL
                       && s.acquired != [] && s.acquired[|s.acquired| - 1] == c
  }

  /** Before its handler returned a request has no run; until it is settled its run is the one it answered with. */
  ghost predicate PhaseRecorded(p: Phase, c: CallerId, runs: map<CallerId, HandlerRun>, now: nat) {
    && (!p.Done? && !p.Answered? ==> c !in runs)
    && (p.Answered? ==> c in runs && runs[c] == HandlerRun(Record(p.lock.fingerprint, p.response), p.since, None))
    && (Active(p) ==> p.since <= now)
  }

  ghost predicate RunsRecorded(s: State) {
    && (forall c :: c in s.runs ==> c in s.callers)
    && (forall c :: c in s.callers ==> PhaseRecorded(s.callers[c], c, s.runs, s.now))
  }

  ghost predicate ReplaysFaithful(s: State) {
    && (s.result.Held? ==> Produced(s.runs, s.result.value))
    && (forall c :: c in s.callers && s.callers[c].Done? && s.callers[c].outcome.Replayed? ==>
                      && s.callers[c].outcome.record.fingerprint == s.callers[c].fingerprint
                      && Produced(s.runs, s.callers[c].outcome.record))
  }

  /** If nothing was committed since a GET missed, the result is still not live. */
  ghost predicate MissesRemembered(s: State) {
    forall c :: c in s.callers && s.callers[c].Missed? ==>
                  && s.callers[c].commitsSeen <= s.commits
                  && (s.callers[c].commitsSeen == s.commits ==> !Live(s.result, s.now))
  }

  ghost predicate Inv(s: State) {
    OwnersDistinct(s) && LockIsLastWinners(s) && RunsRecorded(s) && ReplaysFaithful(s) && MissesRemembered(s)
  }

  lemma RecordsKept(s: State, a: Action)
    requires RunsRecorded(s)
    ensures forall c :: c in s.runs ==> c in Step(s, a).runs && Step(s, a).runs[c].record == s.runs[c].record
  {
    if a.Finish? || a.Settle? {
      assert a.c in s.callers ==> PhaseRecorded(s.callers[a.c], a.c, s.runs, s.now);
    }
  }

  lemma ProducedGrows(s: State, a: Action, record: Record)
    requires RunsRecorded(s) && Produced(s.runs, record)
    ensures Produced(Step(s, a).runs, record)
  {
    RecordsKept(s, a);
    var c :| c in s.runs && s.runs[c].record == record && Succeeded(record.response);
    assert c in Step(s, a).runs && Step(s, a).runs[c].record == record;
  }

  lemma ResultFaithfulStep(s: State, a: Action)
    requires RunsRecorded(s) && ReplaysFaithful(s) && Step(s, a).result.Held?
    ensures Produced(Step(s, a).runs, Step(s, a).result.value)
  {
    var s' := Step(s, a);
    if s'.result == s.result {
      ProducedGrows(s, a, s.result.value);
    } else {
      assert a.Settle? && a.c in s'.runs && s'.runs[a.c].record == s'.result.value;
    }
  }

  lemma NewReplay(s: State, a: Action, c: CallerId)
    requires c in Step(s, a).callers && Step(s, a).callers[c].Done? && Step(s, a).callers[c].outcome.Replayed?
    ensures || (c in s.callers && s.callers[c] == Step(s, a).callers[c])
            || (c in s.callers && s.callers[c].Reading? && s.result.Held?
                && Step(s, a).callers[c].outcome.record == s.result.value
                && s.result.value.fingerprint == Step(s, a).callers[c].fingerprint)
  {
  }

  lemma ReplaysFaithfulStep(s: State, a: Action)
    requires RunsRecorded(s) && ReplaysFaithful(s)
    ensures ReplaysFaithful(Step(s, a))
  {
    var s' := Step(s, a);
    if s'.result.Held? {
      ResultFaithfulStep(s, a);
    }
    forall c | c in s'.callers && s'.callers[c].Done? && s'.callers[c].outcome.Replayed?
      ensures s'.callers[c].outcome.record.fingerprint == s'.callers[c].fingerprint
      ensures Produced(s'.runs, s'.callers[c].outcome.record)
    {
      NewReplay(s, a, c);
      ProducedGrows(s, a, s'.callers[c].outcome.record);
    }
  }

  lemma OwnersDistinctStep(s: State, a: Action)
    requires OwnersDistinct(s)
    ensures OwnersDistinct(Step(s, a))
  {
  }

  lemma LastWinnersQuiet(s: State, a: Action)
    requires LockIsLastWinners(s) && !a.SetNX? && !a.SetNXUnanswered?
    ensures LockIsLastWinners(Step(s, a))
  {
    var s' := Step(s, a);
    assert s'.acquired == s.acquired && s'.issued == s.issued && (s'.lock == s.lock || s'.lock.Missing?);
    forall c | c in s'.callers && Active(s'.callers[c])
      ensures c in s.callers && Active(s.callers[c])
      ensures s.callers[c].lock == s'.callers[c].lock && s.callers[c].since == s'.callers[c].since
    {
    }
  }

  lemma LastWinnersAcquire(s: State, a: Action)
    requires OwnersDistinct(s) && LockIsLastWinners(s) && (a.SetNX? || a.SetNXUnanswered?)
    ensures LockIsLastWinners(Step(s, a))
  {
  }

  lemma LockIsLastWinnersStep(s: State, a: Action)
    requires OwnersDistinct(s) && LockIsLastWinners(s)
    ensures LockIsLastWinners(Step(s, a))
  {
    if a.SetNX? || a.SetNXUnanswered? {
      LastWinnersAcquire(s, a);
    } else {
      LastWinnersQuiet(s, a);
    }
  }

  lemma RunsRecordedQuiet(s: State, a: Action)
    requires RunsRecorded(s) && !a.Finish? && !a.Settle?
    ensures RunsRecorded(Step(s, a))
  {
    var s' := Step(s, a);
    assert s'.runs == s.runs && s.now <= s'.now;
    forall c | c in s'.callers ensures PhaseRecorded(s'.callers[c], c, s'.runs, s'.now) {
      assert c in s.callers ==> PhaseRecorded(s.callers[c], c, s.runs, s.now);
    }
  }

  lemma RunsRecordedStep(s: State, a: Action)
    requires RunsRecorded(s)
    ensures RunsRecorded(Step(s, a))
  {
    if a.Finish? || a.Settle? {
      assert a.c in s.callers ==> PhaseRecorded(s.callers[a.c], a.c, s.runs, s.now);
    } else {
      RunsRecordedQuiet(s, a);
    }
  }

  lemma MissesRememberedStep(s: State, a: Action)
    requires MissesRemembered(s)
    ensures MissesRemembered(Step(s, a))
  {
  }

  lemma InvStep(s: State, a: Action)
    requires Inv(s)
    ensures Inv(Step(s, a))
  {
    OwnersDistinctStep(s, a);
    LockIsLastWinnersStep(s, a);
    RunsRecordedStep(s, a);
    ReplaysFaithfulStep(s, a);
    MissesRememberedStep(s, a);
  }

  lemma {:induction false} InvRun(s: State, acts: seq<Action>)
    requires Inv(s)
    ensures Inv(Run(s, acts))
    decreases |acts|
  {
    if acts != [] {
      InvStep(s, acts[0]);
      InvRun(Step(s, acts[0]), acts[1..]);
    }
  }

  /** Replay is faithful in every interleaving, however slow any leader is. */
  lemma FaithfulReplay(acts: seq<Action>, c: CallerId)
    requires var s := Run(Init(), acts); c in s.callers && s.callers[c].Done? && s.callers[c].outcome.Replayed?
    ensures var s := Run(Init(), acts);
            var record := s.callers[c].outcome.record;
            && record.fingerprint == s.callers[c].fingerprint
            && record.response.status < 500
            && exists d :: d in s.runs && s.runs[d].record == record
  {
    InvRun(Init(), acts);
    var s := Run(Init(), acts);
    assert Produced(s.runs, s.callers[c].outcome.record);
  }

  /**
   Fencing, with no timing assumption: when somebody else won the lock after `c`, or when `c`'s
   own lock ran out, settling `c` neither publishes nor deletes anything in Redis.
   */
  lemma FencedOut(acts: seq<Action>, c: CallerId)
    requires var s := Run(Init(), acts); c in s.callers && s.callers[c].Answered?
    requires var s := Run(Init(), acts);
             || s.acquired == [] || s.acquired[|s.acquired| - 1] != c
             || s.callers[c].since + LOCK_TTL <= s.now
    ensures var s := Run(Init(), acts);
            var s' := Step(s, Settle(c));
            s'.lock == s.lock && s'.result == s.result && s'.runs == s.runs
  {
    InvRun(Init(), acts);
  }

  /** Settling `c` leaves every other request where it was, and moves Redis only while `c` owns the lock. */
  lemma SettleTouchesOnlyOwn(acts: seq<Action>, c: CallerId, d: CallerId)
    requires var s := Run(Init(), acts);
             && c in s.callers && s.callers[c].Answered?
             && d in s.callers && Active(s.callers[d]) && d != c && Owns(s, s.callers[d].lock)
    ensures var s' := Step(Run(Init(), acts), Settle(c));
            && d in s'.callers && s'.callers[d] == Run(Init(), acts).callers[d]
            && Owns(s', s'.callers[d].lock)
            && s'.result == Run(Init(), acts).result
  {
    InvRun(Init(), acts);
  }

  // ----- At most one successful run per record lifetime -----

  /** Every leader settles before its lock expires, unless it dies before its handler returns. */
  ghost predicate LeasesKept(s: State, a: Action) {
    match a
    case Tick(ms) =>
      forall c :: c in s.callers && Active(s.callers[c]) ==> s.now + ms < s.callers[c].since + LOCK_TTL
    case SettleLost(c) => !(c in s.callers && s.callers[c].Answered?)
    case Crash(c) => !(c in s.callers && s.callers[c].Answered?)
    case _ => true
  }

  /** No commit fell between a caller's GET miss and its winning SETNX. */
  ghost predicate NoCommitSinceMiss(s: State, a: Action) {
    a.SetNX? && Wins(s, a.c, a.owner) ==> s.callers[a.c].commitsSeen == s.commits
  }

  /** The guard the code does not have: at a winning SETNX the result key is still missing. */
  ghost predicate ResultStillMissing(s: State, a: Action) {
    a.SetNX? && Wins(s, a.c, a.owner) ==> !Live(s.result, s.now)
  }

  ghost predicate Disciplined(s: State, acts: seq<Action>)
    decreases |acts|
  {
    acts != [] ==>
      && LeasesKept(s, acts[0]) && ResultStillMissing(s, acts[0])
      && Disciplined(Step(s, acts[0]), acts[1..])
  }

  ghost predicate DisciplinedByHistory(s: State, acts: seq<Action>)
    decreases |acts|
  {
    acts != [] ==>
      && LeasesKept(s, acts[0]) && NoCommitSinceMiss(s, acts[0])
      && DisciplinedByHistory(Step(s, acts[0]), acts[1..])
  }

  /** An active leader holds the live lock, and no live record exists beside it. */
  ghost predicate LeaderAlone(s: State) {
    forall c :: c in s.callers && Active(s.callers[c]) ==>
                  && Owns(s, s.callers[c].lock)
                  && !Live(s.result, s.now)
  }

  predicate SuccessfulRun(runs: map<CallerId, HandlerRun>, c: CallerId) {
    c in runs && Succeeded(runs[c].record.response)
  }

  /** `c`'s record was published and had expired by the time `t`. */
  predicate ExpiredBy(runs: map<CallerId, HandlerRun>, c: CallerId, t: nat)
    requires c in runs
  {
    runs[c].liveUntil.Some? && runs[c].liveUntil.value <= t
  }

  ghost predicate RunsSettled(s: State) {
    forall c :: SuccessfulRun(s.runs, c) ==>
                  && (s.runs[c].liveUntil.None? ==> c in s.callers && s.callers[c].Answered?)
                  && (s.runs[c].liveUntil.Some? ==>
                        || ExpiredBy(s.runs, c, s.now)
                        || s.result == Held(s.runs[c].record, s.runs[c].liveUntil.value))
  }

  ghost predicate RunsDisjoint(s: State) {
    forall c, d :: c != d && SuccessfulRun(s.runs, c) && SuccessfulRun(s.runs, d) ==>
                     ExpiredBy(s.runs, c, s.runs[d].since) || ExpiredBy(s.runs, d, s.runs[c].since)
  }

  ghost predicate LeaderLast(s: State) {
    forall c, d :: c != d && SuccessfulRun(s.runs, c) && d in s.callers && Active(s.callers[d]) ==>
                     ExpiredBy(s.runs, c, s.callers[d].since)
  }

  ghost predicate OnceInv(s: State) {
    LeaderAlone(s) && RunsSettled(s) && RunsDisjoint(s) && LeaderLast(s)
  }

  lemma OneLeader(s: State, c: CallerId, d: CallerId)
    requires Inv(s) && LeaderAlone(s)
    requires c in s.callers && d in s.callers && Active(s.callers[c]) && Active(s.callers[d])
    ensures c == d
  {
  }

  lemma AllExpiredWhenIdle(s: State, c: CallerId)
    requires Inv(s) && OnceInv(s) && SuccessfulRun(s.runs, c) && !Live(s.result, s.now)
    requires !s.callers[c].Answered?
    ensures ExpiredBy(s.runs, c, s.now)
  {
  }

  lemma OnceAcquire(s: State, c: CallerId, owner: Owner)
    requires Inv(s) && OnceInv(s) && Wins(s, c, owner) && !Live(s.result, s.now)
    ensures OnceInv(Step(s, SetNX(c, owner)))
  {
    forall d | SuccessfulRun(s.runs, d) ensures ExpiredBy(s.runs, d, s.now) {
      AllExpiredWhenIdle(s, d);
    }
  }

  lemma OnceFinish(s: State, c: CallerId, response: Response)
    requires Inv(s) && OnceInv(s) && c in s.callers && s.callers[c].Running?
    ensures OnceInv(Step(s, Finish(c, response)))
  {
    var s' := Step(s, Finish(c, response));
    forall d | d in s'.callers && Active(s'.callers[d]) ensures d == c {
      OneLeader(s, c, d);
    }
    forall d | d != c && SuccessfulRun(s'.runs, d)
      ensures ExpiredBy(s'.runs, d, s'.runs[c].since)
    {
      assert SuccessfulRun(s.runs, d);
    }
    forall d, e | d != e && SuccessfulRun(s'.runs, d) && SuccessfulRun(s'.runs, e)
      ensures ExpiredBy(s'.runs, d, s'.runs[e].since) || ExpiredBy(s'.runs, e, s'.runs[d].since)
    {
      if d != c && e != c {
        assert SuccessfulRun(s.runs, d) && SuccessfulRun(s.runs, e);
      }
    }
  }

  lemma OnceSettle(s: State, c: CallerId)
    requires Inv(s) && OnceInv(s) && c in s.callers && s.callers[c].Answered?
    ensures OnceInv(Step(s, Settle(c)))
  {
    var s' := Step(s, Settle(c));
    forall d | d in s'.callers && Active(s'.callers[d]) ensures false {
      OneLeader(s, c, d);
    }
    forall d | d in s.runs ensures d in s'.runs && s'.runs[d].(liveUntil := None) == s.runs[d].(liveUntil := None)
    {
    }
    OnceSettleRuns(s, c);
  }

  lemma OnceSettleRuns(s: State, c: CallerId)
    requires Inv(s) && OnceInv(s) && c in s.callers && s.callers[c].Answered?
    ensures RunsSettled(Step(s, Settle(c))) && RunsDisjoint(Step(s, Settle(c)))
  {
    var s' := Step(s, Settle(c));
    forall d | d != c && SuccessfulRun(s.runs, d) ensures ExpiredBy(s.runs, d, s.callers[c].since) {
    }
    forall d, e | d != e && SuccessfulRun(s'.runs, d) && SuccessfulRun(s'.runs, e)
      ensures ExpiredBy(s'.runs, d, s'.runs[e].since) || ExpiredBy(s'.runs, e, s'.runs[d].since)
    {
      assert SuccessfulRun(s.runs, d) && SuccessfulRun(s.runs, e);
    }
    forall d | SuccessfulRun(s'.runs, d) && d != c
      ensures ExpiredBy(s'.runs, d, s'.now)
    {
      assert SuccessfulRun(s.runs, d);
    }
  }

  /** The property depends only on Redis, the recorded runs and who is active. */
  lemma OnceFramed(s: State, s': State)
    requires OnceInv(s)
    requires s'.runs == s.runs && s'.lock == s.lock && s'.result == s.result && s'.now == s.now
    requires forall c :: c in s'.callers && Active(s'.callers[c]) ==> c in s.callers && s'.callers[c] == s.callers[c]
    requires forall c :: c in s.callers && s.callers[c].Answered? ==> c in s'.callers && s'.callers[c] == s.callers[c]
    ensures OnceInv(s')
  {
  }

  lemma OnceQuiet(s: State, a: Action)
    requires OnceInv(s) && LeasesKept(s, a)
    requires !a.Tick? && !a.SetNX? && !a.SetNXUnanswered? && !a.Finish? && !a.Settle?
    ensures OnceInv(Step(s, a))
  {
    OnceFramed(s, Step(s, a));
  }

  lemma OnceSilentWin(s: State, c: CallerId, owner: Owner)
    requires Inv(s) && OnceInv(s)
    ensures OnceInv(Step(s, SetNXUnanswered(c, owner)))
  {
  }

  lemma OnceTick(s: State, ms: nat)
    requires Inv(s) && OnceInv(s) && LeasesKept(s, Tick(ms))
    ensures OnceInv(Step(s, Tick(ms)))
  {
  }

  lemma OnceLostRace(s: State, c: CallerId, owner: Owner)
    requires Inv(s) && OnceInv(s) && !Wins(s, c, owner)
    ensures OnceInv(Step(s, SetNX(c, owner)))
  {
  }

  lemma OnceStep(s: State, a: Action)
    requires Inv(s) && OnceInv(s) && LeasesKept(s, a) && ResultStillMissing(s, a)
    ensures OnceInv(Step(s, a))
  {
    match a
    case SetNX(c, owner) => if Wins(s, c, owner) { OnceAcquire(s, c, owner); } else { OnceLostRace(s, c, owner); }
    case SetNXUnanswered(c, owner) => OnceSilentWin(s, c, owner);
    case Finish(c, response) => if c in s.callers && s.callers[c].Running? { OnceFinish(s, c, response); }
    case Settle(c) => if c in s.callers && s.callers[c].Answered? { OnceSettle(s, c); }
    case Tick(ms) => OnceTick(s, ms);
    case _ => OnceQuiet(s, a);
  }

  lemma {:induction false} OnceRun(s: State, acts: seq<Action>)
    requires Inv(s) && OnceInv(s) && Disciplined(s, acts)
    ensures Inv(Run(s, acts)) && OnceInv(Run(s, acts))
    decreases |acts|
  {
    if acts != [] {
      InvStep(s, acts[0]);
      OnceStep(s, acts[0]);
      OnceRun(Step(s, acts[0]), acts[1..]);
    }
  }

  /** Nothing committed since the miss means the result key is still missing. */
  lemma {:induction false} HistoryImpliesGuard(s: State, acts: seq<Action>)
    requires Inv(s) && DisciplinedByHistory(s, acts)
    ensures Disciplined(s, acts)
    decreases |acts|
  {
    if acts != [] {
      InvStep(s, acts[0]);
      HistoryImpliesGuard(Step(s, acts[0]), acts[1..]);
    }
  }

  /**
   At most once: of two handler runs below 500, one had its record published and expired before
   the other acquired the lock.
   */
  lemma AtMostOnce(acts: seq<Action>, c: CallerId, d: CallerId)
    requires DisciplinedByHistory(Init(), acts) || Disciplined(Init(), acts)
    requires var s := Run(Init(), acts); c != d && SuccessfulRun(s.runs, c) && SuccessfulRun(s.runs, d)
    ensures var s := Run(Init(), acts);
            ExpiredBy(s.runs, c, s.runs[d].since) || ExpiredBy(s.runs, d, s.runs[c].since)
  {
    if DisciplinedByHistory(Init(), acts) {
      HistoryImpliesGuard(Init(), acts);
    }
    OnceRun(Init(), acts);
  }

  /** It gets the live record of the same request, meets a different one, or fails itself. */
  predicate EndsBesideRecord(s: State, a: Action, c: CallerId, outcome: Outcome)
    requires s.result.Held? && c in s.callers && Acquiring(s.callers[c])
  {
    var fp := s.callers[c].fingerprint;
    match outcome
    case Replayed(record) => record == s.result.value && record.fingerprint == fp
    case Conflict =>
      s.result.value.fingerprint != fp
      || (s.lock.Held? && s.now < s.lock.expiresAt && s.lock.value.fingerprint != fp)
    case Unavailable => a == GiveUp(c) || (a.SetNXUnanswered? && a.c == c)
    case Led(_) => false
    case Crashed => false
  }

  /**
   While a record lives, a request that ends gets that record if it is the same request, is refused if it is not the
   one stored or not the one running, or fails itself: it never leads.
   */
  lemma LaterCallersReplay(acts: seq<Action>, a: Action, c: CallerId)
    requires DisciplinedByHistory(Init(), acts + [a]) || Disciplined(Init(), acts + [a])
    requires var s := Run(Init(), acts);
             var s' := Step(s, a);
             && Live(s.result, s.now)
             && c in s.callers && !s.callers[c].Done? && s'.callers[c].Done?
    ensures var s := Run(Init(), acts);
            Acquiring(s.callers[c]) && EndsBesideRecord(s, a, c, Step(s, a).callers[c].outcome)
  {
    if DisciplinedByHistory(Init(), acts + [a]) {
      HistoryImpliesGuard(Init(), acts + [a]);
    }
    DisciplinedPrefix(Init(), acts, a);
    OnceRun(Init(), acts);
    EndsBesideLiveRecord(Run(Init(), acts), a, c);
  }

  lemma EndsBesideLiveRecord(s: State, a: Action, c: CallerId)
    requires LeaderAlone(s) && Live(s.result, s.now) && c in s.callers && !s.callers[c].Done?
    requires Step(s, a).callers[c].Done?
    ensures Acquiring(s.callers[c]) && EndsBesideRecord(s, a, c, Step(s, a).callers[c].outcome)
  {
  }

  lemma {:induction false} DisciplinedPrefix(s: State, acts: seq<Action>, a: Action)
    requires Disciplined(s, acts + [a])
    ensures Disciplined(s, acts)
    decreases |acts|
  {
    if acts != [] {
      assert (acts + [a])[1..] == acts[1..] + [a];
      DisciplinedPrefix(Step(s, acts[0]), acts[1..], a);
    }
  }

  // ----- The win that repeats a run -----

  /** A stored result belongs to a successful run of a request that is done. */
  ghost predicate ResultRecorded(s: State) {
    s.result.Held? ==>
      exists d :: SuccessfulRun(s.runs, d) && s.runs[d].liveUntil == Some(s.result.expiresAt)
                  && d in s.callers && s.callers[d].Done?
  }

  lemma ResultRecordedStep(s: State, a: Action)
    requires RunsRecorded(s) && ResultRecorded(s)
    ensures ResultRecorded(Step(s, a))
  {
    var s' := Step(s, a);
    if s'.result != s.result {
      assert SuccessfulRun(s'.runs, a.c) && s'.runs[a.c].liveUntil == Some(s'.result.expiresAt);
    } else if s.result.Held? {
      var d :| SuccessfulRun(s.runs, d) && s.runs[d].liveUntil == Some(s.result.expiresAt)
               && d in s.callers && s.callers[d].Done?;
      DoneStays(s, a, d);
      assert SuccessfulRun(s'.runs, d);
    }
  }

  lemma DoneStays(s: State, a: Action, d: CallerId)
    requires d in s.callers && s.callers[d].Done?
    ensures d in Step(s, a).callers && Step(s, a).callers[d] == s.callers[d]
    ensures d in s.runs ==> d in Step(s, a).runs && Step(s, a).runs[d] == s.runs[d]
  {
  }

  lemma {:induction false} ResultRecordedRun(s: State, acts: seq<Action>)
    requires Inv(s) && ResultRecorded(s)
    ensures ResultRecorded(Run(s, acts))
    decreases |acts|
  {
    if acts != [] {
      InvStep(s, acts[0]);
      ResultRecordedStep(s, acts[0]);
      ResultRecordedRun(Step(s, acts[0]), acts[1..]);
    }
  }

  /**
   The result is read before SETNX and not after it. In a run that was well behaved so far, a winner that goes
   on to succeed has repeated a successful run within its record's lifetime exactly when, at the moment
   it won, reading the result again would have found one.
   */
  lemma WinRepeatsIffResultLive(acts: seq<Action>, c: CallerId, owner: Owner, response: Response)
    requires Disciplined(Init(), acts) && Wins(Run(Init(), acts), c, owner) && Succeeded(response)
    ensures var s := Run(Init(), acts);
            !RunsDisjoint(Step(Step(s, SetNX(c, owner)), Finish(c, response))) <==> Live(s.result, s.now)
  {
    OnceRun(Init(), acts);
    ResultRecordedRun(Init(), acts);
    var s := Run(Init(), acts);
    if Live(s.result, s.now) {
      RepeatsLiveResult(s, c, owner, response);
    } else {
      OnceAcquire(s, c, owner);
      InvStep(s, SetNX(c, owner));
      OnceFinish(Step(s, SetNX(c, owner)), c, response);
    }
  }

  lemma RepeatsLiveResult(s: State, c: CallerId, owner: Owner, response: Response)
    requires RunsRecorded(s) && ResultRecorded(s) && Wins(s, c, owner) && Succeeded(response) && Live(s.result, s.now)
    ensures !RunsDisjoint(Step(Step(s, SetNX(c, owner)), Finish(c, response)))
  {
    var d :| SuccessfulRun(s.runs, d) && s.runs[d].liveUntil == Some(s.result.expiresAt)
             && d in s.callers && s.callers[d].Done?;
    var won := Step(s, SetNX(c, owner));
    assert won.callers[c] == Running(Lock(s.callers[c].fingerprint, owner), s.now) && won.runs == s.runs;
    var s' := Step(won, Finish(c, response));
    assert SuccessfulRun(s'.runs, c) && s'.runs[c].since == s.now && s'.runs[c].liveUntil.None?;
    assert SuccessfulRun(s'.runs, d) && s'.runs[d] == s.runs[d];
    assert !ExpiredBy(s'.runs, d, s'.runs[c].since) && !ExpiredBy(s'.runs, c, s'.runs[d].since);
  }

  // ----- Leaders that outlive their lock, in every run -----

  function LastWinner(acquired: seq<CallerId>): CallerId
    requires acquired != []
  {
    acquired[|acquired| - 1]
  }

  predicate IsLast(acquired: seq<CallerId>, c: CallerId) {
    acquired != [] && LastWinner(acquired) == c
  }

  /** The last winner, while active, has its lock stored; any other active leader's lock has run out. */
  ghost predicate LeaderLocked(s: State, c: CallerId, p: Phase)
    requires Active(p)
  {
    if IsLast(s.acquired, c) then s.lock == Held(p.lock, p.since + LOCK_TTL) else p.since + LOCK_TTL <= s.now
  }

  ghost predicate LeadersLocked(s: State) {
    forall c :: c in s.callers && Active(s.callers[c]) ==> LeaderLocked(s, c, s.callers[c])
  }

  lemma LockedWin(s: State, c: CallerId, owner: Owner)
    requires LeadersLocked(s) && Wins(s, c, owner)
    ensures LeadersLocked(Step(s, SetNX(c, owner))) && LeadersLocked(Step(s, SetNXUnanswered(c, owner)))
  {
    assert forall d :: d in s.callers && Active(s.callers[d]) ==> s.callers[d].since + LOCK_TTL <= s.now;
  }

  lemma LockedSettle(s: State, c: CallerId)
    requires OwnersDistinct(s) && LeadersLocked(s) && c in s.callers && s.callers[c].Answered?
    ensures LeadersLocked(Step(s, Settle(c)))
  {
    var s' := Step(s, Settle(c));
    forall d | d in s'.callers && Active(s'.callers[d]) ensures LeaderLocked(s', d, s'.callers[d]) {
      assert d != c && LeaderLocked(s, d, s.callers[d]);
    }
  }

  lemma LockedQuiet(s: State, a: Action)
    requires LeadersLocked(s) && !a.SetNX? && !a.SetNXUnanswered? && !a.Settle?
    ensures LeadersLocked(Step(s, a))
  {
    var s' := Step(s, a);
    forall d | d in s'.callers && Active(s'.callers[d]) ensures LeaderLocked(s', d, s'.callers[d]) {
      assert d in s.callers && Active(s.callers[d]) && s.callers[d].lock == s'.callers[d].lock;
      assert s.callers[d].since == s'.callers[d].since && LeaderLocked(s, d, s.callers[d]);
    }
  }

  lemma LockedLost(s: State, c: CallerId, owner: Owner)
    requires LeadersLocked(s) && !Wins(s, c, owner)
    ensures LeadersLocked(Step(s, SetNX(c, owner)))
  {
    var s' := Step(s, SetNX(c, owner));
    forall d | d in s'.callers && Active(s'.callers[d]) ensures LeaderLocked(s', d, s'.callers[d]) {
      assert d in s.callers && s.callers[d] == s'.callers[d] && LeaderLocked(s, d, s.callers[d]);
    }
  }

  lemma LockedStep(s: State, a: Action)
    requires OwnersDistinct(s) && LeadersLocked(s)
    ensures LeadersLocked(Step(s, a))
  {
    match a
    case SetNX(c, owner) => if Wins(s, c, owner) { LockedWin(s, c, owner); } else { LockedLost(s, c, owner); }
    case SetNXUnanswered(c, owner) => if Wins(s, c, owner) { LockedWin(s, c, owner); }
    case Settle(c) => if c in s.callers && s.callers[c].Answered? { LockedSettle(s, c); }
    case _ => LockedQuiet(s, a);
  }

  lemma {:induction false} LockedRun(s: State, acts: seq<Action>)
    requires Inv(s) && LeadersLocked(s)
    ensures LeadersLocked(Run(s, acts))
    decreases |acts|
  {
    if acts != [] {
      InvStep(s, acts[0]);
      LockedStep(s, acts[0]);
      LockedRun(Step(s, acts[0]), acts[1..]);
    }
  }

  lemma OwnsIffLastInTime(s: State, c: CallerId)
    requires LockIsLastWinners(s) && LeadersLocked(s) && c in s.callers && Active(s.callers[c])
    ensures Owns(s, s.callers[c].lock) <==> IsLast(s.acquired, c) && s.now < s.callers[c].since + LOCK_TTL
  {
    assert LeaderLocked(s, c, s.callers[c]);
  }

  /**
   Fencing, exactly: in every run the commit of an answered request publishes its record, and its release
   frees the lock, if and only if nobody won the lock after it and its lock has not run out.
   */
  lemma SettlesIffLastInTime(acts: seq<Action>, c: CallerId)
    requires var s := Run(Init(), acts); c in s.callers && s.callers[c].Answered?
    ensures var s := Run(Init(), acts);
            var p := s.callers[c];
            var s' := Step(s, Settle(c));
            var inTime := IsLast(s.acquired, c) && s.now < p.since + 60_000;
            && (s'.commits == s.commits + 1 <==> inTime && p.response.status < 500)
            && (s'.result == (if inTime && p.response.status < 500
                              then Held(Record(p.lock.fingerprint, p.response), s.now + 86_400_000) else s.result))
            && (s'.lock == if inTime then Missing else s.lock)
  {
    InvRun(Init(), acts);
    LockedRun(Init(), acts);
    OwnsIffLastInTime(Run(Init(), acts), c);
  }

  /** A handler that another one overtook: both succeeded and neither record had expired when the other began. */
  predicate Repeated(runs: map<CallerId, HandlerRun>, c: CallerId, d: CallerId) {
    && SuccessfulRun(runs, c) && SuccessfulRun(runs, d)
    && !ExpiredBy(runs, c, runs[d].since) && !ExpiredBy(runs, d, runs[c].since)
  }

  /**
   Once-only, exactly, with no assumption about leases or misses: in every run that kept it so far, a winner that
   goes on to succeed breaks it if and only if some successful run's record is not published and expired by now.
   */
  lemma WinRepeatsIffRunUnexpired(acts: seq<Action>, c: CallerId, owner: Owner, response: Response)
    requires Wins(Run(Init(), acts), c, owner) && Succeeded(response) && RunsDisjoint(Run(Init(), acts))
    ensures var s := Run(Init(), acts);
            var s' := Step(Step(s, SetNX(c, owner)), Finish(c, response));
            !RunsDisjoint(s') <==> exists d :: SuccessfulRun(s.runs, d) && !ExpiredBy(s.runs, d, s.now)
  {
    InvRun(Init(), acts);
    WinsThenSucceeds(Run(Init(), acts), c, owner, response);
  }

  lemma WinsThenSucceeds(s: State, c: CallerId, owner: Owner, response: Response)
    requires RunsRecorded(s) && Wins(s, c, owner) && Succeeded(response) && RunsDisjoint(s)
    ensures var s' := Step(Step(s, SetNX(c, owner)), Finish(c, response));
            !RunsDisjoint(s') <==> exists d :: SuccessfulRun(s.runs, d) && !ExpiredBy(s.runs, d, s.now)
  {
    var lock := Lock(s.callers[c].fingerprint, owner);
    var won := Step(s, SetNX(c, owner));
    assert won.callers[c] == Running(lock, s.now) && won.runs == s.runs;
    var s' := Step(won, Finish(c, response));
    assert PhaseRecorded(s.callers[c], c, s.runs, s.now);
    assert s'.runs == s.runs[c := HandlerRun(Record(lock.fingerprint, response), s.now, None)];
    assert SuccessfulRun(s'.runs, c) && !ExpiredBy(s'.runs, c, s.now);
    if d :| SuccessfulRun(s.runs, d) && !ExpiredBy(s.runs, d, s.now) {
      assert SuccessfulRun(s'.runs, d) && Repeated(s'.runs, c, d);
    } else {
      forall d, e | d != e && SuccessfulRun(s'.runs, d) && SuccessfulRun(s'.runs, e)
        ensures ExpiredBy(s'.runs, d, s'.runs[e].since) || ExpiredBy(s'.runs, e, s'.runs[d].since)
      {
        assert d != c ==> SuccessfulRun(s.runs, d);
        assert e != c ==> SuccessfulRun(s.runs, e);
      }
    }
  }

  /** Two leaders at once: all but the last winner have outlived their lock. */
  lemma SecondLeaderOutlivedLock(acts: seq<Action>, c: CallerId, d: CallerId)
    requires var s := Run(Init(), acts);
             c != d && c in s.callers && d in s.callers && Active(s.callers[c]) && Active(s.callers[d])
    ensures var s := Run(Init(), acts);
            s.callers[c].since + LOCK_TTL <= s.now || s.callers[d].since + LOCK_TTL <= s.now
  {
    InvRun(Init(), acts);
    LockedRun(Init(), acts);
    var s := Run(Init(), acts);
    assert LeaderLocked(s, c, s.callers[c]) && LeaderLocked(s, d, s.callers[d]);
  }

  /** `c` became leader at `since`; a record it publishes from now on outlives `until`. */
  ghost predicate Tracked(s: State, c: CallerId, since: nat, until: nat) {
    && until <= s.now && c in s.callers
    && (s.callers[c].Done? || (Active(s.callers[c]) && s.callers[c].since == since))
    && (c in s.runs ==> s.runs[c].since == since && (s.runs[c].liveUntil.Some? ==> until < s.runs[c].liveUntil.value))
  }

  lemma TrackedStep(s: State, a: Action, c: CallerId, since: nat, until: nat)
    requires RunsRecorded(s) && Tracked(s, c, since, until)
    ensures Tracked(Step(s, a), c, since, until)
  {
    assert PhaseRecorded(s.callers[c], c, s.runs, s.now);
  }

  lemma {:induction false} TrackedRun(s: State, acts: seq<Action>, c: CallerId, since: nat, until: nat)
    requires Inv(s) && Tracked(s, c, since, until)
    ensures Tracked(Run(s, acts), c, since, until)
    decreases |acts|
  {
    if acts != [] {
      InvStep(s, acts[0]);
      TrackedStep(s, acts[0], c, since, until);
      TrackedRun(Step(s, acts[0]), acts[1..], c, since, until);
    }
  }

  lemma ActiveTracked(s: State, c: CallerId, until: nat)
    requires RunsRecorded(s) && c in s.callers && Active(s.callers[c]) && until <= s.now
    ensures Tracked(s, c, s.callers[c].since, until)
  {
    assert PhaseRecorded(s.callers[c], c, s.runs, s.now);
  }

  /**
   The expired-lock case, exactly: when two requests lead at once, then, whatever happens next, the mutation has been
   repeated within a record's lifetime if and only if both their handlers have returned below 500.
   */
  lemma TwoLeadersRepeatIffBothSucceed(acts: seq<Action>, c: CallerId, d: CallerId, more: seq<Action>)
    requires var s := Run(Init(), acts);
             c != d && c in s.callers && d in s.callers && Active(s.callers[c]) && Active(s.callers[d])
    ensures var runs := Run(Run(Init(), acts), more).runs;
            Repeated(runs, c, d) <==> SuccessfulRun(runs, c) && SuccessfulRun(runs, d)
  {
    InvRun(Init(), acts);
    var s := Run(Init(), acts);
    assert PhaseRecorded(s.callers[c], c, s.runs, s.now) && PhaseRecorded(s.callers[d], d, s.runs, s.now);
    var until := if s.callers[c].since < s.callers[d].since then s.callers[d].since else s.callers[c].since;
    ActiveTracked(s, c, until);
    ActiveTracked(s, d, until);
    TrackedRun(s, more, c, s.callers[c].since, until);
    TrackedRun(s, more, d, s.callers[d].since, until);
  }

  // ----- Runs that show each condition is needed -----

  function Ok200(): Response { Response(200, map[], []) }

  lemma RunThree(s: State, a: Action, b: Action, c: Action)
    ensures Run(s, [a, b, c]) == Step(Step(Step(s, a), b), c)
  {
    assert [a, b, c][1..] == [b, c] && [b, c][1..] == [c];
    assert Run(s, [a, b, c]) == Run(Step(s, a), [b, c]);
    assert Run(Step(s, a), [b, c]) == Run(Step(Step(s, a), b), [c]);
    assert Run(Step(Step(s, a), b), [c]) == Run(Step(Step(Step(s, a), b), c), []);
  }

  lemma {:induction false} RunConcat(s: State, acts: seq<Action>, more: seq<Action>)
    ensures Run(s, acts + more) == Run(Run(s, acts), more)
    decreases |acts|
  {
    if acts == [] {
      assert acts + more == more;
    } else {
      assert (acts + more)[1..] == acts[1..] + more;
      RunConcat(Step(s, acts[0]), acts[1..], more);
    }
  }

  /** Two requests miss; the first leads, commits and unlocks; the second then wins the free lock. */
  function LateReader(): seq<Action> {
    [Arrive(1, ""), Arrive(2, ""), GetResult(1)]
    + [GetResult(2), SetNX(1, 10), Finish(1, Ok200())]
    + [Settle(1), SetNX(2, 20), Finish(2, Ok200())]
  }

  lemma FirstLeads(s: State)
    requires s == Init().(callers := map[1 := Missed("", 0), 2 := Reading("")])
    ensures var s' := Run(s, [GetResult(2), SetNX(1, 10), Finish(1, Ok200())]);
            && s'.callers == map[1 := Answered(Lock("", 10), 0, Ok200()), 2 := Missed("", 0)]
            && s'.lock == Held(Lock("", 10), LOCK_TTL) && s'.now == 0 && s'.issued == {10}
  {
    RunThree(s, GetResult(2), SetNX(1, 10), Finish(1, Ok200()));
  }

  lemma SecondLeads(s: State)
    requires s.callers == map[1 := Answered(Lock("", 10), 0, Ok200()), 2 := Missed("", 0)]
    requires s.lock == Held(Lock("", 10), LOCK_TTL) && s.now == 0 && s.issued == {10}
    ensures var s' := Run(s, [Settle(1), SetNX(2, 20), Finish(2, Ok200())]);
            && SuccessfulRun(s'.runs, 1) && s'.runs[1].since == 0 && s'.runs[1].liveUntil == Some(RESULT_TTL)
            && SuccessfulRun(s'.runs, 2) && s'.runs[2].since == 0 && s'.runs[2].liveUntil == None
  {
    RunThree(s, Settle(1), SetNX(2, 20), Finish(2, Ok200()));
    var run := HandlerRun(Record("", Ok200()), 0, Some(RESULT_TTL));
    var s1 := Step(s, Settle(1));
    assert s1.callers == map[1 := Done("", Led(Ok200())), 2 := Missed("", 0)];
    assert s1.runs[1] == run && s1.lock == Missing && s1.issued == {10} && s1.now == 0;
    var s2 := Step(s1, SetNX(2, 20));
    assert s2.callers[2] == Running(Lock("", 20), 0) && s2.runs == s1.runs;
  }

  /** Every lease is kept, yet the mutation runs twice within one record lifetime. */
  lemma StaleMissRunsTwice()
    ensures forall a :: a in LateReader() ==> !a.Tick? && !a.SettleLost? && !a.Crash?
    ensures var s := Run(Init(), LateReader());
            && SuccessfulRun(s.runs, 1) && SuccessfulRun(s.runs, 2)
            && !ExpiredBy(s.runs, 1, s.runs[2].since) && !ExpiredBy(s.runs, 2, s.runs[1].since)
  {
    var first := [Arrive(1, ""), Arrive(2, ""), GetResult(1)];
    var second := [GetResult(2), SetNX(1, 10), Finish(1, Ok200())];
    RunConcat(Init(), first + second, [Settle(1), SetNX(2, 20), Finish(2, Ok200())]);
    RunConcat(Init(), first, second);
    RunThree(Init(), first[0], first[1], first[2]);
    FirstLeads(Run(Init(), first));
    SecondLeads(Run(Run(Init(), first), second));
  }

  /** The first leader outlives its lock; a second request leads while the first is still running. */
  function SlowLeader(): seq<Action> {
    [Arrive(1, ""), GetResult(1), SetNX(1, 10)]
    + [Tick(LOCK_TTL), Arrive(2, ""), GetResult(2)]
    + [SetNX(2, 20), Finish(1, Ok200()), Finish(2, Ok200())]
  }

  /** No commit separates a miss from its win, yet a leader slower than its lock lets the mutation run twice. */
  lemma ExpiredLockRunsTwice()
    ensures forall a :: a in SlowLeader() ==> !a.Settle?
    ensures var s := Run(Init(), SlowLeader());
            && SuccessfulRun(s.runs, 1) && SuccessfulRun(s.runs, 2)
            && !ExpiredBy(s.runs, 1, s.runs[2].since) && !ExpiredBy(s.runs, 2, s.runs[1].since)
  {
    var first := [Arrive(1, ""), GetResult(1), SetNX(1, 10)];
    var second := [Tick(LOCK_TTL), Arrive(2, ""), GetResult(2)];
    var third := [SetNX(2, 20), Finish(1, Ok200()), Finish(2, Ok200())];
    RunConcat(Init(), first + second, third);
    RunConcat(Init(), first, second);
    SlowFirst();
    SlowSecond(Run(Init(), first));
    SlowThird(Run(Run(Init(), first), second));
  }

  lemma SlowFirst()
    ensures var s := Run(Init(), [Arrive(1, ""), GetResult(1), SetNX(1, 10)]);
            && s.callers == map[1 := Running(Lock("", 10), 0)] && s.now == 0
            && s.lock == Held(Lock("", 10), LOCK_TTL) && s.result == Missing && s.issued == {10} && s.runs == map[]
  {
    RunThree(Init(), Arrive(1, ""), GetResult(1), SetNX(1, 10));
    var s := Step(Step(Init(), Arrive(1, "")), GetResult(1));
    assert s.callers == map[1 := Missed("", 0)];
  }

  lemma SlowSecond(s: State)
    requires s.callers == map[1 := Running(Lock("", 10), 0)] && s.now == 0
    requires s.lock == Held(Lock("", 10), LOCK_TTL) && s.result == Missing && s.issued == {10} && s.runs == map[]
    ensures var s' := Run(s, [Tick(LOCK_TTL), Arrive(2, ""), GetResult(2)]);
            && s'.callers == map[1 := Running(Lock("", 10), 0), 2 := Missed("", s.commits)] && s'.now == LOCK_TTL
            && s'.lock == s.lock && s'.issued == {10} && s'.runs == map[]
  {
    RunThree(s, Tick(LOCK_TTL), Arrive(2, ""), GetResult(2));
  }

  lemma SlowThird(s: State)
    requires 1 in s.callers && s.callers[1] == Running(Lock("", 10), 0)
    requires 2 in s.callers && s.callers[2].Missed? && s.now == LOCK_TTL
    requires s.lock == Held(Lock("", 10), LOCK_TTL) && s.issued == {10} && s.runs == map[]
    ensures var s' := Run(s, [SetNX(2, 20), Finish(1, Ok200()), Finish(2, Ok200())]);
            && SuccessfulRun(s'.runs, 1) && s'.runs[1].liveUntil.None?
            && SuccessfulRun(s'.runs, 2) && s'.runs[2].liveUntil.None?
  {
    RunThree(s, SetNX(2, 20), Finish(1, Ok200()), Finish(2, Ok200()));
    var s1 := Step(s, SetNX(2, 20));
    assert s1.callers[1] == s.callers[1] && s1.callers[2].Running? && s1.runs == map[];
    var s2 := Step(s1, Finish(1, Ok200()));
    assert s2.callers[2] == s1.callers[2] && 1 in s2.runs && s2.runs[1].liveUntil.None?
        && s2.runs[1].record.response == Ok200();
  }
}
