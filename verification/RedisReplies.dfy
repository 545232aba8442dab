/**
 What a request is answered in the cross-replica protocol: when it is refused, when it fails, and that a retry
 of a finished request gets the stored response.
 */
module RedisReplies {
  import opened Options
  import opened RedisIdempotency

  function FingerprintOf(p: Phase): string {
    match p
    case Reading(f) => f
    case Missed(f, _) => f
    case Blocked(f) => f
    case Waiting(f) => f
    case Running(lock, _) => lock.fingerprint
    case Answered(lock, _, _) => lock.fingerprint
    case Done(f, _) => f
  }

  // ----- Conflicts -----

  predicate AllArrive(acts: seq<Action>, f: string) {
    forall i :: 0 <= i < |acts| && acts[i].Arrive? ==> acts[i].fingerprint == f
  }

  /** Everything bears the fingerprint `f`, and nobody was refused. */
  ghost predicate Uniform(s: State, f: string) {
    && (s.lock.Held? ==> s.lock.value.fingerprint == f)
    && (s.result.Held? ==> s.result.value.fingerprint == f)
    && forall c :: c in s.callers ==> UniformPhase(s.callers[c], f)
  }

  predicate UniformPhase(p: Phase, f: string) {
    FingerprintOf(p) == f && !(p.Done? && p.outcome.Conflict?)
  }

  lemma UniformCallers(s: State, a: Action, f: string, c: CallerId)
    requires Uniform(s, f) && (a.Arrive? ==> a.fingerprint == f) && c in Step(s, a).callers
    ensures UniformPhase(Step(s, a).callers[c], f)
  {
    assert c in s.callers ==> UniformPhase(s.callers[c], f);
  }

  lemma UniformKeys(s: State, a: Action, f: string)
    requires Uniform(s, f)
    ensures Step(s, a).lock.Held? ==> Step(s, a).lock.value.fingerprint == f
    ensures Step(s, a).result.Held? ==> Step(s, a).result.value.fingerprint == f
  {
    if (a.Settle? || a.SetNX? || a.SetNXUnanswered?) && a.c in s.callers {
      assert UniformPhase(s.callers[a.c], f);
    }
  }

  lemma UniformStep(s: State, a: Action, f: string)
    requires Uniform(s, f) && (a.Arrive? ==> a.fingerprint == f)
    ensures Uniform(Step(s, a), f)
  {
    UniformKeys(s, a, f);
    forall c | c in Step(s, a).callers ensures UniformPhase(Step(s, a).callers[c], f) {
      UniformCallers(s, a, f, c);
    }
  }

  lemma {:induction false} UniformRun(s: State, acts: seq<Action>, f: string)
    requires Uniform(s, f) && AllArrive(acts, f)
    ensures Uniform(Run(s, acts), f)
    decreases |acts|
  {
    if acts != [] {
      UniformStep(s, acts[0], f);
      UniformRun(Step(s, acts[0]), acts[1..], f);
    }
  }

  /** In every run in which all requests for the key are the same request, none is refused as a conflict. */
  lemma SameRequestNeverConflicts(acts: seq<Action>, f: string, c: CallerId)
    requires AllArrive(acts, f) && c in Run(Init(), acts).callers
    ensures var p := Run(Init(), acts).callers[c]; !(p.Done? && p.outcome.Conflict?)
  {
    UniformRun(Init(), acts, f);
    assert UniformPhase(Run(Init(), acts).callers[c], f);
  }

  /** A request is refused exactly where it meets a stored response or a running request with another fingerprint. */
  lemma ConflictIffDiffers(s: State, a: Action, c: CallerId)
    requires c in s.callers && !s.callers[c].Done?
    ensures var p := Step(s, a).callers[c];
            p.Done? && p.outcome.Conflict?
            <==> || (a == GetResult(c) && s.callers[c].Reading? && s.result.Held? && s.now < s.result.expiresAt
                     && s.result.value.fingerprint != s.callers[c].fingerprint)
                 || (a == GetLock(c) && s.callers[c].Blocked? && s.lock.Held? && s.now < s.lock.expiresAt
                     && s.lock.value.fingerprint != s.callers[c].fingerprint)
  {
  }

  // ----- Errors -----

  /** Redis failed, the request was cancelled, or the answer to its SETNX was lost. */
  predicate Fails(a: Action, c: CallerId) {
    a == GiveUp(c) || (a.SetNXUnanswered? && a.c == c)
  }

  /**
   A request is answered unavailable exactly when it gives up before it leads, or takes the lock without hearing of it;
   it then neither leads nor starts over.
   */
  lemma FailsClosed(s: State, a: Action, c: CallerId)
    requires c in s.callers && !s.callers[c].Done?
    ensures var p, p' := s.callers[c], Step(s, a).callers[c];
            p' == Done(if Acquiring(p) then p.fingerprint else p.lock.fingerprint, Unavailable)
            <==> || (a == GiveUp(c) && Acquiring(p))
                 || (a.SetNXUnanswered? && a.c == c && p.Missed? && a.owner !in s.issued
                     && !(s.lock.Held? && s.now < s.lock.expiresAt))
  {
  }

  lemma UnavailableStep(s: State, a: Action, c: CallerId)
    requires !Fails(a, c) && (c in s.callers ==> !(s.callers[c].Done? && s.callers[c].outcome.Unavailable?))
    ensures c in Step(s, a).callers ==>
              !(Step(s, a).callers[c].Done? && Step(s, a).callers[c].outcome.Unavailable?)
  {
  }

  lemma {:induction false} UnavailableRun(s: State, acts: seq<Action>, c: CallerId)
    requires c in s.callers ==> !(s.callers[c].Done? && s.callers[c].outcome.Unavailable?)
    requires forall i :: 0 <= i < |acts| ==> !Fails(acts[i], c)
    ensures c in Run(s, acts).callers ==>
              !(Run(s, acts).callers[c].Done? && Run(s, acts).callers[c].outcome.Unavailable?)
    decreases |acts|
  {
    if acts != [] {
      UnavailableStep(s, acts[0], c);
      UnavailableRun(Step(s, acts[0]), acts[1..], c);
    }
  }

  /** Nobody is told that coordination is unavailable unless Redis or the request itself failed. */
  lemma UnavailableOnlyOnFailure(acts: seq<Action>, c: CallerId)
    requires var s := Run(Init(), acts); c in s.callers && s.callers[c].Done? && s.callers[c].outcome.Unavailable?
    ensures exists i :: 0 <= i < |acts| && Fails(acts[i], c)
  {
    if forall i :: 0 <= i < |acts| ==> !Fails(acts[i], c) {
      UnavailableRun(Init(), acts, c);
    }
  }

  // ----- Replays -----

  /**
   A retry is replayed: in a well-behaved run of one and the same request, whoever ends while the response is stored,
   and does not fail itself, gets exactly that response.
   */
  lemma RetryGetsStoredResponse(acts: seq<Action>, a: Action, f: string, c: CallerId)
    requires DisciplinedByHistory(Init(), acts + [a]) || Disciplined(Init(), acts + [a])
    requires AllArrive(acts, f) && !Fails(a, c)
    requires var s := Run(Init(), acts);
             && Live(s.result, s.now) && c in s.callers && !s.callers[c].Done? && Step(s, a).callers[c].Done?
    ensures var s := Run(Init(), acts); Step(s, a).callers[c].outcome == Replayed(s.result.value)
  {
    var s := Run(Init(), acts);
    LaterCallersReplay(acts, a, c);
    UniformRun(Init(), acts, f);
    assert UniformPhase(s.callers[c], f);
    ConflictIffDiffers(s, a, c);
    UnavailableStep(s, a, c);
  }

  /** With no condition on the run: a request that arrives and reads while its response is stored gets it at once. */
  lemma NewRetryGetsStoredResponse(s: State, c: CallerId, f: string)
    requires c !in s.callers && s.result.Held? && s.now < s.result.expiresAt && s.result.value.fingerprint == f
    ensures Step(Step(s, Arrive(c, f)), GetResult(c)).callers[c] == Done(f, Replayed(s.result.value))
  {
  }

  /** And one that arrives while there is neither response nor lock leads. */
  lemma FirstRequestLeads(s: State, c: CallerId, f: string, owner: Owner)
    requires c !in s.callers && owner !in s.issued
    requires !(s.result.Held? && s.now < s.result.expiresAt) && !(s.lock.Held? && s.now < s.lock.expiresAt)
    ensures var s' := Step(Step(Step(s, Arrive(c, f)), GetResult(c)), SetNX(c, owner));
            s'.callers[c] == Running(Lock(f, owner), s.now) && s'.lock == Held(Lock(f, owner), s.now + 60_000)
  {
    var s1 := Step(s, Arrive(c, f));
    assert s1.callers[c] == Reading(f);
    var s2 := Step(s1, GetResult(c));
    assert s2.callers[c] == Missed(f, s.commits);
  }

  // ----- The leader's own answer -----

  /** A leader was answered with what its handler returned. */
  ghost predicate OwnAnswer(s: State, c: CallerId, p: Phase) {
    p.Done? && p.outcome.Led? ==> c in s.runs && s.runs[c].record == Record(p.fingerprint, p.outcome.response)
  }

  ghost predicate OwnAnswers(s: State) {
    forall c :: c in s.callers ==> OwnAnswer(s, c, s.callers[c])
  }

  lemma OwnAnswersStep(s: State, a: Action)
    requires RunsRecorded(s) && OwnAnswers(s)
    ensures OwnAnswers(Step(s, a))
  {
    RecordsKept(s, a);
    forall c | c in Step(s, a).callers ensures OwnAnswer(Step(s, a), c, Step(s, a).callers[c]) {
      OwnAnswerStep(s, a, c);
    }
  }

  lemma OwnAnswerStep(s: State, a: Action, c: CallerId)
    requires RunsRecorded(s) && OwnAnswers(s) && c in Step(s, a).callers
    requires forall d :: d in s.runs ==> d in Step(s, a).runs && Step(s, a).runs[d].record == s.runs[d].record
    ensures OwnAnswer(Step(s, a), c, Step(s, a).callers[c])
  {
    assert c in s.callers ==> OwnAnswer(s, c, s.callers[c]) && PhaseRecorded(s.callers[c], c, s.runs, s.now);
  }

  lemma {:induction false} OwnAnswersRun(s: State, acts: seq<Action>)
    requires Inv(s) && OwnAnswers(s)
    ensures OwnAnswers(Run(s, acts))
    decreases |acts|
  {
    if acts != [] {
      InvStep(s, acts[0]);
      OwnAnswersStep(s, acts[0]);
      OwnAnswersRun(Step(s, acts[0]), acts[1..]);
    }
  }

  /** In every run a request that led is answered with the response of its own handler, published or not. */
  lemma LeaderGetsOwnResponse(acts: seq<Action>, c: CallerId)
    requires var s := Run(Init(), acts); c in s.callers && s.callers[c].Done? && s.callers[c].outcome.Led?
    ensures var s := Run(Init(), acts); c in s.runs && s.runs[c].record.response == s.callers[c].outcome.response
  {
    OwnAnswersRun(Init(), acts);
    assert OwnAnswer(Run(Init(), acts), c, Run(Init(), acts).callers[c]);
  }
}
