/** What a request is answered by the in-process coordination: never a conflict with itself, and a retry is replayed. */
module LocalReplies {
  import opened Options
  import opened LocalIdempotency

  /** One request per key. */
  predicate OneRequestPerKey(acts: seq<Action>, request: string -> string) {
    forall i :: 0 <= i < |acts| && acts[i].Arrive? ==> acts[i].fingerprint == request(acts[i].key)
  }

  ghost predicate Uniform(s: State, request: string -> string) {
    && (forall c :: c in s.heap ==> s.heap[c].fingerprint == request(s.heap[c].key))
    && (forall k :: k in s.entries ==> s.entries[k] in s.heap && s.heap[s.entries[k]].key == k)
    && forall c :: c in s.calls ==> !s.calls[c].Conflict?
  }

  lemma UniformArrive(s: State, c: Call, key: string, now: int, request: string -> string)
    requires Uniform(s, request) && c !in s.calls && c !in s.heap
    ensures Uniform(ArriveStep(s, c, key, request(key), now), request)
  {
    var pruned := s.(entries := Prune(s.entries, s.heap, now));
    assert Uniform(pruned, request);
  }

  lemma UniformStep(s: State, a: Action, request: string -> string)
    requires Uniform(s, request) && (a.Arrive? ==> a.fingerprint == request(a.key))
    ensures Uniform(Step(s, a), request)
  {
    if a.Arrive? {
      if a.c !in s.calls && a.c !in s.heap {
        UniformArrive(s, a.c, a.key, a.now, request);
      }
    } else {
      UniformLater(s, a, request);
    }
  }

  lemma UniformLater(s: State, a: Action, request: string -> string)
    requires Uniform(s, request) && !a.Arrive?
    ensures Uniform(Step(s, a), request)
  {
  }

  lemma {:induction false} UniformRun(s: State, acts: seq<Action>, request: string -> string)
    requires Uniform(s, request) && OneRequestPerKey(acts, request)
    ensures Uniform(Run(s, acts), request)
    decreases |acts|
  {
    if acts != [] {
      UniformStep(s, acts[0], request);
      UniformRun(Step(s, acts[0]), acts[1..], request);
    }
  }

  /** In every run in which each key is used for one request only, nobody is refused as a conflict. */
  lemma SameRequestNeverConflicts(acts: seq<Action>, request: string -> string, c: Call)
    requires OneRequestPerKey(acts, request) && c in Run(Init(), acts).calls
    ensures !Run(Init(), acts).calls[c].Conflict?
  {
    UniformRun(Init(), acts, request);
  }

  /** The entry that a new call with this clock reading finds under the key. */
  predicate Finds(s: State, key: string, now: int, d: Call) {
    && key in s.entries && s.entries[key] == d && d in s.heap
    && !(s.heap[d].expiresAt.Some? && s.heap[d].expiresAt.value <= now)
  }

  /** A new call leads exactly when it finds no entry; one it finds refuses it exactly when the requests differ. */
  lemma ArrivalDecided(acts: seq<Action>, s: State, c: Call, key: string, fingerprint: string, now: int)
    requires s == Run(Init(), acts) && c !in s.calls && c !in s.heap
    ensures var p := Step(s, Arrive(c, key, fingerprint, now)).calls[c];
            && (p.Leading? <==> !exists d :: Finds(s, key, now, d))
            && (p.Conflict? <==> exists d :: Finds(s, key, now, d) && s.heap[d].fingerprint != fingerprint)
            && forall d :: Finds(s, key, now, d) && s.heap[d].fingerprint == fingerprint ==>
                             p == Waiting(d, key, fingerprint)
  {
    InvRun(Init(), acts);
    Decided(s, c, key, fingerprint, now);
  }

  lemma Decided(s: State, c: Call, key: string, fingerprint: string, now: int)
    requires MapPointsHome(s.entries, s.heap) && c !in s.calls && c !in s.heap
    ensures var p := Step(s, Arrive(c, key, fingerprint, now)).calls[c];
            && (p.Leading? <==> !exists d :: Finds(s, key, now, d))
            && (p.Conflict? <==> exists d :: Finds(s, key, now, d) && s.heap[d].fingerprint != fingerprint)
            && forall d :: Finds(s, key, now, d) && s.heap[d].fingerprint == fingerprint ==>
                             p == Waiting(d, key, fingerprint)
  {
    if key in s.entries {
      assert Finds(s, key, now, s.entries[key]) || Expired(s.heap[s.entries[key]], now);
    }
  }

  /** A retry is replayed: a call that finds a finished entry of the same request gets exactly its response. */
  lemma RetryGetsStoredResponse(acts: seq<Action>, s: State, c: Call, key: string, fingerprint: string, now: int,
                                d: Call)
    requires s == Run(Init(), acts) && c !in s.calls && c !in s.heap
    requires Finds(s, key, now, d) && s.heap[d].fingerprint == fingerprint
    requires s.heap[d].closed && s.heap[d].response.Some?
    ensures Step(Step(s, Arrive(c, key, fingerprint, now)), Read(c)).calls[c]
            == Replayed(d, key, fingerprint, s.heap[d].response.value)
  {
    ArrivalDecided(acts, s, c, key, fingerprint, now);
    var s' := Step(s, Arrive(c, key, fingerprint, now));
    assert s'.calls[c] == Waiting(d, key, fingerprint) && s'.heap == s.heap;
  }
}
