/**
 The Redis server and the request coordinator in the source's own form: fields updated command by
 command. Every method is one step of the protocol in module RedisIdempotency, whose theorems
 therefore hold of any sequence of these calls.
 */
module RedisCoordinator {
  import opened Options
  import opened RedisIdempotency

  /** The two Redis keys behind one storage key, on Redis's own clock. */
  class Redis {
    var now: nat
    var lock: Key<Lock>
    var result: Key<Record>

    constructor ()
      ensures now == 0 && lock == Missing && result == Missing
    {
      now, lock, result := 0, Missing, Missing;
    }

    method GetResult() returns (found: Option<Record>)
      ensures found == if Live(result, now) then Some(result.value) else None
    {
      found := None;
      if result.Held? && now < result.expiresAt {
        found := Some(result.value);
      }
    }

    method GetLock() returns (found: Option<Lock>)
      ensures found == if Live(lock, now) then Some(lock.value) else None
    {
      found := None;
      if lock.Held? && now < lock.expiresAt {
        found := Some(lock.value);
      }
    }

    method SetNX(value: Lock) returns (acquired: bool)
      modifies this`lock
      ensures acquired == !Live(old(lock), now)
      ensures lock == if acquired then Held(value, now + LOCK_TTL) else old(lock)
    {
      var existing := GetLock();
      acquired := existing.None?;
      if acquired {
        lock := Held(value, now + LOCK_TTL);
      }
    }

    /** Publishes and unlocks, but only while the caller's exact lock value is stored. */
    method CommitScript(owner: Lock, record: Record) returns (applied: bool)
      modifies this`lock, this`result
      ensures applied == (Live(old(lock), now) && old(lock).value == owner)
      ensures applied ==> result == Held(record, now + RESULT_TTL) && lock == Missing
      ensures !applied ==> result == old(result) && lock == old(lock)
    {
      var existing := GetLock();
      if existing != Some(owner) {
        return false;
      }
      result := Held(record, now + RESULT_TTL);
      lock := Missing;
      return true;
    }

    method ReleaseScript(owner: Lock) returns (applied: bool)
      modifies this`lock
      ensures applied == (Live(old(lock), now) && old(lock).value == owner)
      ensures lock == if applied then Missing else old(lock)
    {
      var existing := GetLock();
      applied := existing == Some(owner);
      if applied {
        lock := Missing;
      }
    }
  }

  class Coordinator {
    const redis: Redis
    var callers: map<CallerId, Phase>
    ghost var issued: set<Owner>
    ghost var acquired: seq<CallerId>
    var commits: nat  // history: remembered in `Missed`, never tested
    ghost var runs: map<CallerId, HandlerRun>

    ghost function View(): State
      reads this, redis
    {
      State(redis.now, redis.lock, redis.result, callers, issued, acquired, commits, runs)
    }

    constructor ()
      ensures View() == Init()
      ensures fresh(redis)
    {
      redis := new Redis();
      callers := map[];
      issued, acquired, commits, runs := {}, [], 0, map[];
    }

    method Begin(c: CallerId, fingerprint: string)
      requires c !in callers
      modifies this
      ensures View() == Step(old(View()), Arrive(c, fingerprint))
    {
      callers := callers[c := Reading(fingerprint)];
    }

    /** Top of the acquisition loop: replay, conflict or miss. */
    method ReadResult(c: CallerId)
      requires c in callers && callers[c].Reading?
      modifies this
      ensures View() == Step(old(View()), GetResult(c))
    {
      var fingerprint := callers[c].fingerprint;
      var record := redis.GetResult();
      match record {
        case None =>
          callers := callers[c := Missed(fingerprint, commits)];
        case Some(r) =>
          if r.fingerprint != fingerprint {
            callers := callers[c := Done(fingerprint, Conflict)];
          } else {
            callers := callers[c := Done(fingerprint, Replayed(r))];
          }
      }
    }

    method TryLock(c: CallerId, owner: Owner)
      requires c in callers && callers[c].Missed? && owner !in issued
      modifies this, redis
      ensures View() == Step(old(View()), SetNX(c, owner))
    {
      var lock := Lock(callers[c].fingerprint, owner);
      var won := redis.SetNX(lock);
      if won {
        acquired := acquired + [c];
        callers := callers[c := Running(lock, redis.now)];
      } else {
        callers := callers[c := Blocked(lock.fingerprint)];
      }
      issued := issued + {owner};
    }

    method ReadLock(c: CallerId)
      requires c in callers && callers[c].Blocked?
      modifies this
      ensures View() == Step(old(View()), GetLock(c))
    {
      var fingerprint := callers[c].fingerprint;
      var existing := redis.GetLock();
      match existing {
        case None =>
          callers := callers[c := Reading(fingerprint)];
        case Some(parsed) =>
          if parsed.fingerprint != fingerprint {
            callers := callers[c := Done(fingerprint, Conflict)];
          } else {
            callers := callers[c := Waiting(fingerprint)];
          }
      }
    }

    method WakeUp(c: CallerId)
      requires c in callers && callers[c].Waiting?
      modifies this
      ensures View() == Step(old(View()), Resume(c))
    {
      callers := callers[c := Reading(callers[c].fingerprint)];
    }

    method FailClosed(c: CallerId)
      requires c in callers && Acquiring(callers[c])
      modifies this
      ensures View() == Step(old(View()), GiveUp(c))
    {
      callers := callers[c := Done(callers[c].fingerprint, Unavailable)];
    }

    method HandlerReturned(c: CallerId, response: Response)
      requires c in callers && callers[c].Running?
      modifies this
      ensures View() == Step(old(View()), Finish(c, response))
    {
      var p := callers[c];
      callers := callers[c := Answered(p.lock, p.since, response)];
      runs := runs[c := HandlerRun(Record(p.lock.fingerprint, response), p.since, None)];
    }

    /** Release at 500 and above, commit below, then answer the client either way. */
    method WriteBack(c: CallerId)
      requires c in callers && callers[c].Answered?
      modifies this, redis
      ensures View() == Step(old(View()), Settle(c))
    {
      var p := callers[c];
      var applied;
      if p.response.status >= SERVER_ERROR {
        applied := redis.ReleaseScript(p.lock);
      } else {
        var record := Record(p.lock.fingerprint, p.response);
        applied := redis.CommitScript(p.lock, record);
        if applied {
          commits := commits + 1;
          runs := runs[c := HandlerRun(record, p.since, Some(redis.now + RESULT_TTL))];
        }
      }
      callers := callers[c := Done(p.lock.fingerprint, Led(p.response))];
    }
  }
}
