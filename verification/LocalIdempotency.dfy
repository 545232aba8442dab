/**
 In-process retry coordination: an entries map under one mutex, entries filled in later by their
 leader, waiters blocked on the entry's ready channel, and pruning on every arrival.

 An entry is named after the call that created it; `heap` holds every entry ever created, because
 waiters and leaders keep pointers to entries that are no longer in the map.
 */
module LocalIdempotency {
  import opened Options

  const TTL: int := 86_400  // 24 hours, in seconds
  const SERVER_ERROR: int := 500

  type Call = nat

  datatype Response = Response(status: int, header: map<string, seq<string>>, body: seq<bv8>)

  /** `order` counts creations; the source does not store it. */
  datatype Entry = Entry(
    key: string,
    fingerprint: string,
    arrivedAt: int,
    order: nat,
    response: Option<Response>,
    expiresAt: Option<int>,
    closed: bool)

  datatype Phase =
    | Leading                                     // handler running
    | Filled                                      // entry filled, channel not closed yet
    | Waiting(leader: Call, key: string, fingerprint: string)
    | Led                                         // answered from its own handler
    | Replayed(leader: Call, key: string, fingerprint: string, response: Response)
    | Conflict

  datatype State = State(entries: map<string, Call>, heap: map<Call, Entry>, calls: map<Call, Phase>, created: nat)

  datatype Action =
    | Arrive(c: Call, key: string, fingerprint: string, now: int)
    | Finish(c: Call, response: Response)
    | Close(c: Call)
    | Read(c: Call)

  function Init(): State {
    State(map[], map[], map[], 0)
  }

  predicate Expired(e: Entry, now: int) {
    e.expiresAt.Some? && e.expiresAt.value <= now
  }

  function Prune(entries: map<string, Call>, heap: map<Call, Entry>, now: int): map<string, Call> {
    map k | k in entries && !(entries[k] in heap && Expired(heap[entries[k]], now)) :: entries[k]
  }

  function NewEntry(s: State, key: string, fingerprint: string, now: int): Entry {
    Entry(key, fingerprint, now, s.created, None, None, false)
  }

  /** After pruning: conflict, wait on the existing entry, or lead a new one. */
  function AdmitStep(s: State, c: Call, key: string, fingerprint: string, now: int): State {
    if key in s.entries && s.entries[key] in s.heap then
      var leader := s.entries[key];
      s.(calls := s.calls[c := if s.heap[leader].fingerprint != fingerprint then Conflict
                               else Waiting(leader, key, fingerprint)])
    else
      State(s.entries[key := c], s.heap[c := NewEntry(s, key, fingerprint, now)], s.calls[c := Leading], s.created + 1)
  }

  /** The first critical section. */
  function ArriveStep(s: State, c: Call, key: string, fingerprint: string, now: int): State {
    AdmitStep(s.(entries := Prune(s.entries, s.heap, now)), c, key, fingerprint, now)
  }

  /** The second critical section: fill the entry; a server error removes whatever is under the key. */
  function FinishStep(s: State, c: Call, response: Response): State
    requires c in s.heap
  {
    var e := s.heap[c].(response := Some(response), expiresAt := Some(s.heap[c].arrivedAt + TTL));
    State(if response.status >= SERVER_ERROR then s.entries - {e.key} else s.entries,
          s.heap[c := e], s.calls[c := Filled], s.created)
  }

  function CloseStep(s: State, c: Call): State
    requires c in s.heap
  {
    s.(heap := s.heap[c := s.heap[c].(closed := true)], calls := s.calls[c := Led])
  }

  function Step(s: State, a: Action): State {
    match a
    case Arrive(c, key, fingerprint, now) =>
      if c in s.calls || c in s.heap then s else ArriveStep(s, c, key, fingerprint, now)
    case Finish(c, response) =>
      if c in s.calls && s.calls[c].Leading? && c in s.heap then FinishStep(s, c, response) else s
    case Close(c) =>
      if c in s.calls && s.calls[c].Filled? && c in s.heap
      then CloseStep(s, c) else s
    case Read(c) =>
      if && c in s.calls && s.calls[c].Waiting? && s.calls[c].leader in s.heap
         && s.heap[s.calls[c].leader].closed && s.heap[s.calls[c].leader].response.Some?
      then
        var p := s.calls[c];
        s.(calls := s.calls[c := Replayed(p.leader, p.key, p.fingerprint, s.heap[p.leader].response.value)])
      else s
  }

  function Run(s: State, acts: seq<Action>): State
    decreases |acts|
  {
    if acts == [] then s else Run(Step(s, acts[0]), acts[1..])
  }

  // ----- The store in the source's own form -----

  class Store {
    var entries: map<string, Call>
    var heap: map<Call, Entry>
    var calls: map<Call, Phase>
    var created: nat  // history: numbers the entries, never tested

    ghost function View(): State
      reads this
    {
      State(entries, heap, calls, created)
    }

    constructor ()
      ensures View() == Init()
    {
      entries, heap, calls, created := map[], map[], map[], 0;
    }

    method PruneExpired(now: int)
      modifies this`entries
      ensures entries == Prune(old(entries), heap, now)
    {
      var pending := entries.Keys;
      while pending != {}
        invariant pending <= entries.Keys <= old(entries).Keys
        invariant forall k :: k in entries ==> entries[k] == old(entries)[k]
        invariant forall k :: k in old(entries) && k !in pending ==>
                                (k in entries <==> k in Prune(old(entries), heap, now))
        decreases pending
      {
        var k :| k in pending;
        var entry := entries[k];
        if entry in heap && heap[entry].expiresAt.Some? && heap[entry].expiresAt.value <= now {
          entries := entries - {k};
        }
        pending := pending - {k};
      }
    }

    method Admit(c: Call, key: string, fingerprint: string, now: int)
      requires c !in calls && c !in heap
      modifies this
      ensures View() == Step(old(View()), Arrive(c, key, fingerprint, now))
    {
      PruneExpired(now);
      if key in entries && entries[key] in heap {
        var existing := entries[key];
        if heap[existing].fingerprint != fingerprint {
          calls := calls[c := Conflict];
        } else {
          calls := calls[c := Waiting(existing, key, fingerprint)];
        }
        return;
      }
      heap := heap[c := Entry(key, fingerprint, now, created, None, None, false)];
      created := created + 1;
      entries := entries[key := c];
      calls := calls[c := Leading];
    }

    method Complete(c: Call, response: Response)
      requires c in calls && calls[c].Leading? && c in heap
      modifies this
      ensures View() == Step(old(View()), Finish(c, response))
    {
      var entry := heap[c];
      entry := entry.(response := Some(response));
      entry := entry.(expiresAt := Some(entry.arrivedAt + TTL));
      heap := heap[c := entry];
      if response.status >= SERVER_ERROR {
        entries := entries - {entry.key};
      }
      calls := calls[c := Filled];
    }

    method CloseReady(c: Call)
      requires c in calls && calls[c].Filled? && c in heap
      modifies this
      ensures View() == Step(old(View()), Close(c))
    {
      heap := heap[c := heap[c].(closed := true)];
      calls := calls[c := Led];
    }

    method WaiterReads(c: Call) returns (response: Response)
      requires c in calls && calls[c].Waiting? && calls[c].leader in heap
      requires heap[calls[c].leader].closed && heap[calls[c].leader].response.Some?
      modifies this
      ensures View() == Step(old(View()), Read(c))
      ensures heap == old(heap) && Some(response) == heap[old(calls)[c].leader].response
    {
      var p := calls[c];
      response := heap[p.leader].response.value;
      calls := calls[c := Replayed(p.leader, p.key, p.fingerprint, response)];
    }
  }

  // ----- What every run keeps, whatever the clocks say -----

  ghost predicate MapPointsHome(entries: map<string, Call>, heap: map<Call, Entry>) {
    forall k :: k in entries ==>
                  && entries[k] in heap && heap[entries[k]].key == k
                  && (heap[entries[k]].response.Some? ==> heap[entries[k]].response.value.status < SERVER_ERROR)
  }

  /** Exactly the unfilled entries have a leading call. */
  ghost predicate LeadersUnfilled(heap: map<Call, Entry>, calls: map<Call, Phase>) {
    && (forall c :: c in heap ==> c in calls && (heap[c].response.None? <==> calls[c].Leading?))
    && (forall c :: c in calls && calls[c].Leading? ==> c in heap)
  }

  /** An entry in flight is still the one under its key. */
  ghost predicate InFlightKept(entries: map<string, Call>, heap: map<Call, Entry>) {
    forall c :: c in heap && heap[c].response.None? ==> heap[c].key in entries && entries[heap[c].key] == c
  }

  ghost predicate EntriesFilledOnce(heap: map<Call, Entry>) {
    forall c :: c in heap ==>
                  && (heap[c].response.Some? ==> heap[c].expiresAt == Some(heap[c].arrivedAt + TTL))
                  && (heap[c].response.None? ==> heap[c].expiresAt == None && !heap[c].closed)
  }

  ghost predicate WaiterMatches(heap: map<Call, Entry>, p: Phase) {
    && (p.Waiting? ==>
          p.leader in heap && heap[p.leader].key == p.key && heap[p.leader].fingerprint == p.fingerprint)
    && (p.Replayed? ==>
          && p.leader in heap && heap[p.leader].key == p.key && heap[p.leader].fingerprint == p.fingerprint
          && heap[p.leader].response == Some(p.response))
  }

  ghost predicate WaitersMatch(heap: map<Call, Entry>, calls: map<Call, Phase>) {
    forall c {:trigger WaiterMatches(heap, calls[c])} :: c in calls ==> WaiterMatches(heap, calls[c])
  }

  ghost predicate OrdersDistinct(heap: map<Call, Entry>, created: nat) {
    && (forall c :: c in heap ==> heap[c].order < created)
    && (forall c, d :: c in heap && d in heap && c != d ==> heap[c].order != heap[d].order)
  }

  /** The entry under a key is the newest one created for it. */
  ghost predicate MapHoldsNewest(entries: map<string, Call>, heap: map<Call, Entry>) {
    forall k, c :: k in entries && entries[k] in heap && c in heap && heap[c].key == k ==>
                     heap[c].order <= heap[entries[k]].order
  }

  ghost predicate Inv(s: State) {
    && MapPointsHome(s.entries, s.heap) && InFlightKept(s.entries, s.heap) && MapHoldsNewest(s.entries, s.heap)
    && LeadersUnfilled(s.heap, s.calls) && WaitersMatch(s.heap, s.calls)
    && EntriesFilledOnce(s.heap) && OrdersDistinct(s.heap, s.created)
  }

  /** Pruning drops only filled entries. */
  lemma PruneKeeps(s: State, now: int)
    requires Inv(s)
    ensures Inv(s.(entries := Prune(s.entries, s.heap, now)))
  {
  }

  lemma JoinKeeps(s: State, c: Call, p: Phase)
    requires Inv(s) && c !in s.calls && !p.Leading? && WaiterMatches(s.heap, p)
    ensures Inv(s.(calls := s.calls[c := p]))
  {
  }

  lemma LeadKeepsMap(s: State, c: Call, key: string, fingerprint: string, now: int)
    requires Inv(s) && c !in s.heap && key !in s.entries
    ensures var s' := State(s.entries[key := c], s.heap[c := NewEntry(s, key, fingerprint, now)],
                            s.calls[c := Leading], s.created + 1);
            && MapPointsHome(s'.entries, s'.heap) && InFlightKept(s'.entries, s'.heap)
            && MapHoldsNewest(s'.entries, s'.heap)
            && EntriesFilledOnce(s'.heap) && OrdersDistinct(s'.heap, s'.created)
  {
  }

  lemma LeadKeepsCalls(s: State, c: Call, e: Entry)
    requires Inv(s) && c !in s.calls && c !in s.heap && e.response.None?
    ensures LeadersUnfilled(s.heap[c := e], s.calls[c := Leading])
    ensures WaitersMatch(s.heap[c := e], s.calls[c := Leading])
  {
    forall d | d in s.calls && d != c ensures WaiterMatches(s.heap[c := e], s.calls[d]) {
      assert WaiterMatches(s.heap, s.calls[d]);
    }
  }

  lemma AdmitKeeps(s: State, c: Call, key: string, fingerprint: string, now: int)
    requires Inv(s) && c !in s.calls && c !in s.heap
    ensures Inv(AdmitStep(s, c, key, fingerprint, now))
  {
    if key in s.entries && s.entries[key] in s.heap {
      var leader := s.entries[key];
      JoinKeeps(s, c, if s.heap[leader].fingerprint != fingerprint then Conflict
                      else Waiting(leader, key, fingerprint));
    } else {
      LeadKeepsMap(s, c, key, fingerprint, now);
      LeadKeepsCalls(s, c, NewEntry(s, key, fingerprint, now));
    }
  }

  /** Filling an entry changes neither its key, its fingerprint, its age nor its order. */
  lemma FinishKeepsCalls(s: State, c: Call, response: Response)
    requires Inv(s) && c in s.calls && s.calls[c].Leading? && c in s.heap
    ensures var s' := FinishStep(s, c, response);
            LeadersUnfilled(s'.heap, s'.calls) && WaitersMatch(s'.heap, s'.calls)
  {
    var s' := FinishStep(s, c, response);
    forall d | d in s'.calls ensures WaiterMatches(s'.heap, s'.calls[d]) {
      assert WaiterMatches(s.heap, s.calls[d]);
    }
  }

  ghost predicate SameShapes(heap: map<Call, Entry>, heap': map<Call, Entry>) {
    && heap'.Keys == heap.Keys
    && forall c :: c in heap ==> heap'[c].key == heap[c].key && heap'[c].order == heap[c].order
  }

  lemma ShapesKeepOrders(entries: map<string, Call>, entries': map<string, Call>,
                         heap: map<Call, Entry>, heap': map<Call, Entry>, created: nat)
    requires MapHoldsNewest(entries, heap) && OrdersDistinct(heap, created) && SameShapes(heap, heap')
    requires forall k :: k in entries' ==> k in entries && entries'[k] == entries[k]
    ensures MapHoldsNewest(entries', heap') && OrdersDistinct(heap', created)
  {
  }

  lemma FinishKeepsMap(s: State, c: Call, response: Response)
    requires Inv(s) && c in s.calls && s.calls[c].Leading? && c in s.heap
    ensures var s' := FinishStep(s, c, response);
            MapPointsHome(s'.entries, s'.heap) && InFlightKept(s'.entries, s'.heap)
  {
  }

  lemma FinishKeepsFilled(s: State, c: Call, response: Response)
    requires EntriesFilledOnce(s.heap) && c in s.heap
    ensures EntriesFilledOnce(FinishStep(s, c, response).heap)
  {
  }

  lemma FinishKeeps(s: State, c: Call, response: Response)
    requires Inv(s) && c in s.calls && s.calls[c].Leading? && c in s.heap
    ensures Inv(FinishStep(s, c, response))
  {
    FinishKeepsCalls(s, c, response);
    FinishKeepsMap(s, c, response);
    FinishKeepsFilled(s, c, response);
    var s' := FinishStep(s, c, response);
    ShapesKeepOrders(s.entries, s'.entries, s.heap, s'.heap, s.created);
  }

  lemma CloseKeepsCalls(s: State, c: Call)
    requires Inv(s) && c in s.calls && s.calls[c].Filled? && c in s.heap
    ensures var s' := CloseStep(s, c); WaitersMatch(s'.heap, s'.calls) && LeadersUnfilled(s'.heap, s'.calls)
  {
    var s' := CloseStep(s, c);
    forall d | d in s'.calls ensures WaiterMatches(s'.heap, s'.calls[d]) {
      assert WaiterMatches(s.heap, s.calls[d]);
    }
  }

  lemma CloseKeepsMap(s: State, c: Call)
    requires Inv(s) && c in s.calls && s.calls[c].Filled? && c in s.heap
    ensures var s' := CloseStep(s, c);
            MapPointsHome(s'.entries, s'.heap) && InFlightKept(s'.entries, s'.heap) && EntriesFilledOnce(s'.heap)
  {
    var s' := CloseStep(s, c);
    assert s.heap[c].response.Some? && s'.entries == s.entries && s'.heap.Keys == s.heap.Keys;
    forall d | d in s'.heap
      ensures s'.heap[d].key == s.heap[d].key && s'.heap[d].response == s.heap[d].response
      ensures s'.heap[d].expiresAt == s.heap[d].expiresAt && (d != c ==> s'.heap[d] == s.heap[d])
    {
    }
  }

  lemma CloseKeeps(s: State, c: Call)
    requires Inv(s) && c in s.calls && s.calls[c].Filled? && c in s.heap
    ensures Inv(CloseStep(s, c))
  {
    CloseKeepsCalls(s, c);
    CloseKeepsMap(s, c);
    ShapesKeepOrders(s.entries, s.entries, s.heap, CloseStep(s, c).heap, s.created);
  }

  lemma ReadKeeps(s: State, c: Call)
    requires Inv(s)
    ensures Inv(Step(s, Read(c)))
  {
    var s' := Step(s, Read(c));
    forall d | d in s'.calls ensures WaiterMatches(s'.heap, s'.calls[d]) {
      assert WaiterMatches(s.heap, s.calls[d]);
    }
  }

  lemma InvStep(s: State, a: Action)
    requires Inv(s)
    ensures Inv(Step(s, a))
  {
    match a
    case Arrive(c, key, fingerprint, now) =>
      if !(c in s.calls || c in s.heap) {
        PruneKeeps(s, now);
        AdmitKeeps(s.(entries := Prune(s.entries, s.heap, now)), c, key, fingerprint, now);
      }
    case Finish(c, response) =>
      if c in s.calls && s.calls[c].Leading? && c in s.heap { FinishKeeps(s, c, response); }
    case Close(c) => if c in s.calls && s.calls[c].Filled? && c in s.heap { CloseKeeps(s, c); }
    case Read(c) => ReadKeeps(s, c);
  }

  lemma {:induction false} InvRun(s: State, acts: seq<Action>)
    requires Inv(s)
    ensures Inv(Run(s, acts))
    decreases |acts|
  {
    if acts != [] {
      InvStep(s, acts[0]);
      InvRun(Step(s, acts[0]), acts[1..]);
    }
  }

  /** At most one handler is in flight per key, in every order of arrivals, completions and prunes. */
  lemma OneHandlerPerKey(acts: seq<Action>, c: Call, d: Call)
    requires var s := Run(Init(), acts);
             && c in s.calls && d in s.calls && s.calls[c].Leading? && s.calls[d].Leading?
             && c in s.heap && d in s.heap && s.heap[c].key == s.heap[d].key
    ensures c == d
  {
    InvRun(Init(), acts);
  }

  /**
   A finishing leader fills its own entry and, on a server error, deletes its own entry: every other key keeps
   its.
   */
  lemma FinishTouchesOwnEntry(acts: seq<Action>, c: Call, response: Response)
    requires var s := Run(Init(), acts); c in s.calls && s.calls[c].Leading?
    ensures var s := Run(Init(), acts);
            var s' := Step(s, Finish(c, response));
            && c in s.heap && s.heap[c].key in s.entries && s.entries[s.heap[c].key] == c
            && (forall d :: d in s.heap && d != c ==> d in s'.heap && s'.heap[d] == s.heap[d])
            && (forall k :: k in s.entries && s.entries[k] != c ==> k in s'.entries && s'.entries[k] == s.entries[k])
            && (response.status >= 500 <==> s.heap[c].key !in s'.entries)
  {
    InvRun(Init(), acts);
  }

  /** A replayed answer is the answer of a leader with the same key and fingerprint. */
  lemma WaiterGetsLeadersResponse(acts: seq<Action>, c: Call)
    requires var s := Run(Init(), acts); c in s.calls && s.calls[c].Replayed?
    ensures var s := Run(Init(), acts);
            var p := s.calls[c];
            && p.leader in s.heap
            && s.heap[p.leader].key == p.key && s.heap[p.leader].fingerprint == p.fingerprint
            && s.heap[p.leader].response == Some(p.response)
  {
    InvRun(Init(), acts);
    var s := Run(Init(), acts);
    assert WaiterMatches(s.heap, s.calls[c]);
  }

  /** No waiter is stranded: once its leader has closed the channel, its read succeeds. */
  lemma ClosedMeansReadable(acts: seq<Action>, c: Call)
    requires var s := Run(Init(), acts); c in s.calls && s.calls[c].Waiting?
    requires var s := Run(Init(), acts);
             s.calls[c].leader in s.heap ==> s.heap[s.calls[c].leader].closed
    ensures Step(Run(Init(), acts), Read(c)).calls[c].Replayed?
  {
    InvRun(Init(), acts);
    var s := Run(Init(), acts);
    assert WaiterMatches(s.heap, s.calls[c]);
  }

  // ----- Once per lifetime, with a clock monotone in lock order -----

  ghost predicate MonotoneFrom(now: int, acts: seq<Action>)
    decreases |acts|
  {
    acts != [] ==>
      && (acts[0].Arrive? ==> now <= acts[0].now)
      && MonotoneFrom(if acts[0].Arrive? then acts[0].now else now, acts[1..])
  }

  predicate Succeeded(e: Entry) {
    e.response.Some? && e.response.value.status < SERVER_ERROR
  }

  /** A success is still under its key, or has expired. */
  ghost predicate SuccessesKept(entries: map<string, Call>, heap: map<Call, Entry>, now: int) {
    forall c :: c in heap && Succeeded(heap[c]) ==>
                  || (heap[c].key in entries && entries[heap[c].key] == c)
                  || Expired(heap[c], now)
  }

  ghost predicate LaterRunsWait(heap: map<Call, Entry>) {
    forall c, d :: c in heap && d in heap && heap[c].key == heap[d].key
                   && heap[c].order < heap[d].order && Succeeded(heap[c])
                   ==> Expired(heap[c], heap[d].arrivedAt)
  }

  lemma OncePrune(s: State, now: int, at: int)
    requires Inv(s) && SuccessesKept(s.entries, s.heap, now) && now <= at
    ensures SuccessesKept(Prune(s.entries, s.heap, at), s.heap, at)
  {
  }

  lemma OnceAdmit(s: State, c: Call, key: string, fingerprint: string, at: int)
    requires Inv(s) && SuccessesKept(s.entries, s.heap, at) && LaterRunsWait(s.heap)
    requires c !in s.calls && c !in s.heap
    ensures var s' := AdmitStep(s, c, key, fingerprint, at);
            SuccessesKept(s'.entries, s'.heap, at) && LaterRunsWait(s'.heap)
  {
  }

  lemma OnceFinish(s: State, now: int, c: Call, response: Response)
    requires Inv(s) && SuccessesKept(s.entries, s.heap, now) && LaterRunsWait(s.heap)
    requires c in s.calls && s.calls[c].Leading? && c in s.heap
    ensures var s' := FinishStep(s, c, response);
            SuccessesKept(s'.entries, s'.heap, now) && LaterRunsWait(s'.heap)
  {
    var s' := FinishStep(s, c, response);
    forall d | d in s.heap && d != c ensures s'.heap[d] == s.heap[d] {
    }
    forall d | d in s.heap && s.heap[d].key == s.heap[c].key ensures s.heap[d].order <= s.heap[c].order {
    }
  }

  lemma OnceClose(s: State, now: int, c: Call)
    requires SuccessesKept(s.entries, s.heap, now) && LaterRunsWait(s.heap)
    ensures var s' := Step(s, Close(c));
            SuccessesKept(s'.entries, s'.heap, now) && LaterRunsWait(s'.heap)
  {
  }

  lemma OnceStep(s: State, now: int, a: Action)
    requires Inv(s) && SuccessesKept(s.entries, s.heap, now) && LaterRunsWait(s.heap)
    requires a.Arrive? ==> now <= a.now
    ensures var s' := Step(s, a);
            && SuccessesKept(s'.entries, s'.heap, if a.Arrive? then a.now else now)
            && LaterRunsWait(s'.heap)
  {
    match a
    case Arrive(c, key, fingerprint, at) =>
      if !(c in s.calls || c in s.heap) {
        OncePrune(s, now, at);
        PruneKeeps(s, at);
        OnceAdmit(s.(entries := Prune(s.entries, s.heap, at)), c, key, fingerprint, at);
      }
    case Finish(c, response) =>
      if c in s.calls && s.calls[c].Leading? && c in s.heap { OnceFinish(s, now, c, response); }
    case Close(c) => OnceClose(s, now, c);
    case Read(c) => assert Step(s, a).heap == s.heap && Step(s, a).entries == s.entries;
  }

  lemma {:induction false} OnceRun(s: State, now: int, acts: seq<Action>)
    requires Inv(s) && SuccessesKept(s.entries, s.heap, now) && LaterRunsWait(s.heap) && MonotoneFrom(now, acts)
    ensures Inv(Run(s, acts)) && LaterRunsWait(Run(s, acts).heap)
    decreases |acts|
  {
    if acts != [] {
      InvStep(s, acts[0]);
      OnceStep(s, now, acts[0]);
      OnceRun(Step(s, acts[0]), if acts[0].Arrive? then acts[0].now else now, acts[1..]);
    }
  }

  /**
   After a run that ended below 500, the handler for that key does not run again until the entry
   has expired; and a run only starts once every earlier run for its key has finished.
   */
  lemma OncePerLifetime(now: int, acts: seq<Action>, c: Call, d: Call)
    requires MonotoneFrom(now, acts)
    requires var s := Run(Init(), acts);
             && c in s.heap && d in s.heap && s.heap[c].key == s.heap[d].key && s.heap[c].order < s.heap[d].order
    ensures var s := Run(Init(), acts);
            && s.heap[c].response.Some?
            && (s.heap[c].response.value.status < 500 ==>
                  s.heap[c].arrivedAt + 86_400 <= s.heap[d].arrivedAt)
  {
    OnceRun(Init(), now, acts);
  }

  // ----- The monotone clock is needed -----

  lemma RunFour(s: State, a: Action, b: Action, c: Action, d: Action)
    ensures Run(s, [a, b, c, d]) == Step(Step(Step(Step(s, a), b), c), d)
  {
    var acts := [a, b, c, d];
    assert acts[1..] == [b, c, d] && [b, c, d][1..] == [c, d] && [c, d][1..] == [d];
    assert Run(s, acts) == Run(Step(s, a), [b, c, d]);
    assert Run(Step(s, a), [b, c, d]) == Run(Step(Step(s, a), b), [c, d]);
    assert Run(Step(Step(s, a), b), [c, d]) == Run(Step(Step(Step(s, a), b), c), [d]);
    assert Run(Step(Step(Step(s, a), b), c), [d]) == Run(Step(Step(Step(Step(s, a), b), c), d), []);
  }

  /** A later clock reading under another key prunes the entry; an earlier reading then runs the handler again. */
  function ClockSkew(): seq<Action> {
    [Arrive(1, "k", "", 0), Finish(1, Response(200, map[], [])), Arrive(2, "other", "", TTL), Arrive(3, "k", "", 1)]
  }

  lemma FirstSucceeds()
    ensures var s := Step(Step(Init(), Arrive(1, "k", "", 0)), Finish(1, Response(200, map[], [])));
            && s.entries == map["k" := 1] && s.calls == map[1 := Filled]
            && s.heap == map[1 := Entry("k", "", 0, 0, Some(Response(200, map[], [])), Some(TTL), false)]
  {
  }

  lemma SkewPrunes(s: State)
    requires s.entries == map["k" := 1] && s.calls == map[1 := Filled]
    requires s.heap == map[1 := Entry("k", "", 0, 0, Some(Response(200, map[], [])), Some(TTL), false)]
    ensures var s' := Step(s, Arrive(2, "other", "", TTL));
            && s'.entries == map["other" := 2] && s'.calls == map[1 := Filled, 2 := Leading]
            && s'.heap.Keys == {1, 2} && s'.heap[1] == s.heap[1]
            && s'.heap[2] == NewEntry(s, "other", "", TTL)
  {
  }

  lemma SkewRunsEarly()
    ensures var s := Run(Init(), ClockSkew());
            && 1 in s.heap && 3 in s.heap && s.heap[1].key == s.heap[3].key
            && Succeeded(s.heap[1]) && s.calls[3].Leading? && !Expired(s.heap[1], s.heap[3].arrivedAt)
  {
    var acts := ClockSkew();
    RunFour(Init(), acts[0], acts[1], acts[2], acts[3]);
    FirstSucceeds();
    SkewPrunes(Step(Step(Init(), acts[0]), acts[1]));
  }

  // ----- When a handler runs again early, exactly -----

  /** The call's entry is still the one under its key. */
  predicate There(s: State, d: Call) {
    d in s.heap && s.heap[d].key in s.entries && s.entries[s.heap[d].key] == d
  }

  predicate Newest(s: State, d: Call) {
    d in s.heap && forall e :: e in s.heap && s.heap[e].key == s.heap[d].key ==> s.heap[e].order <= s.heap[d].order
  }

  /** A new call enters the first critical section with a reading at or past `t`. */
  predicate ReadsPast(s: State, a: Action, t: int) {
    a.Arrive? && a.c !in s.calls && a.c !in s.heap && a.now >= t
  }

  /** Among the steps from `s` on, such a reading. */
  ghost predicate SomeReadsPast(s: State, acts: seq<Action>, t: int) {
    exists i :: 0 <= i < |acts| && ReadsPast(Run(s, acts[..i]), acts[i], t)
  }

  predicate SameResult(e: Entry, e': Entry) {
    e'.key == e.key && e'.arrivedAt == e.arrivedAt && e'.response == e.response
  }

  lemma ArriveThere(s: State, a: Action, d: Call)
    requires Inv(s) && d in s.heap && Succeeded(s.heap[d]) && a.Arrive?
    ensures var s' := Step(s, a);
            && d in s'.heap && s'.heap[d] == s.heap[d]
            && (There(s', d) <==> There(s, d) && !ReadsPast(s, a, s.heap[d].arrivedAt + TTL))
  {
  }

  lemma FinishThere(s: State, a: Action, d: Call)
    requires Inv(s) && d in s.heap && Succeeded(s.heap[d]) && !a.Arrive?
    ensures var s' := Step(s, a);
            && d in s'.heap && SameResult(s.heap[d], s'.heap[d])
            && (There(s', d) <==> There(s, d))
  {
    if a.Finish? && a.c in s.calls && s.calls[a.c].Leading? {
      assert a.c in s.heap && s.heap[a.c].response.None? && a.c != d;
    }
  }

  lemma ThereStep(s: State, a: Action, d: Call)
    requires Inv(s) && d in s.heap && Succeeded(s.heap[d])
    ensures var s' := Step(s, a);
            && Inv(s') && d in s'.heap && SameResult(s.heap[d], s'.heap[d]) && Succeeded(s'.heap[d])
            && (There(s', d) <==> There(s, d) && !ReadsPast(s, a, s.heap[d].arrivedAt + TTL))
  {
    InvStep(s, a);
    if a.Arrive? {
      ArriveThere(s, a, d);
    } else {
      FinishThere(s, a, d);
    }
  }

  lemma {:induction false} RunAppend(s: State, acts: seq<Action>, a: Action)
    ensures Run(s, acts + [a]) == Step(Run(s, acts), a)
    decreases |acts|
  {
    if acts == [] {
      assert Run(s, [a]) == Run(Step(s, a), []);
    } else {
      assert (acts + [a])[1..] == acts[1..] + [a];
      RunAppend(Step(s, acts[0]), acts[1..], a);
    }
  }

  lemma ReadsPastAppend(s: State, acts: seq<Action>, t: int)
    requires acts != []
    ensures var n := |acts| - 1;
            SomeReadsPast(s, acts, t) <==> SomeReadsPast(s, acts[..n], t) || ReadsPast(Run(s, acts[..n]), acts[n], t)
  {
    var n := |acts| - 1;
    assert forall i :: 0 <= i < n ==> acts[..n][..i] == acts[..i];
    if SomeReadsPast(s, acts[..n], t) {
      var i :| 0 <= i < n && ReadsPast(Run(s, acts[..n][..i]), acts[..n][i], t);
      assert ReadsPast(Run(s, acts[..i]), acts[i], t);
    }
    if i :| 0 <= i < |acts| && ReadsPast(Run(s, acts[..i]), acts[i], t) {
      assert i < n ==> ReadsPast(Run(s, acts[..n][..i]), acts[..n][i], t);
    }
  }

  lemma {:induction false} ThereIffNoneReadPast(s: State, acts: seq<Action>, d: Call)
    requires Inv(s) && d in s.heap && Succeeded(s.heap[d])
    ensures var s' := Run(s, acts);
            && Inv(s') && d in s'.heap && SameResult(s.heap[d], s'.heap[d])
            && (There(s', d) <==> There(s, d) && !SomeReadsPast(s, acts, s.heap[d].arrivedAt + TTL))
    decreases |acts|
  {
    if acts != [] {
      var n := |acts| - 1;
      ThereIffNoneReadPast(s, acts[..n], d);
      ReadsPastAppend(s, acts, s.heap[d].arrivedAt + TTL);
      assert acts[..n] + [acts[n]] == acts;
      RunAppend(s, acts[..n], acts[n]);
      ThereStep(Run(s, acts[..n]), acts[n], d);
    }
  }

  /** A request `c` for d's key would run the handler. */
  predicate Reruns(s: State, d: Call, c: Call, fingerprint: string, now: int)
    requires d in s.heap
  {
    var calls := Step(s, Arrive(c, s.heap[d].key, fingerprint, now)).calls;
    c in calls && calls[c].Leading?
  }

  /**
   A new call for the key of the newest entry leads exactly when that entry is gone once the expired ones are
   pruned.
   */
  lemma LeadsIffGone(s: State, d: Call, c: Call, fingerprint: string, now: int)
    requires Inv(s) && Newest(s, d) && Succeeded(s.heap[d]) && c !in s.calls && c !in s.heap
    ensures Reruns(s, d, c, fingerprint, now) <==> !There(s, d) || s.heap[d].arrivedAt + TTL <= now
  {
    var key := s.heap[d].key;
    if key in s.entries {
      assert s.entries[key] in s.heap && s.heap[s.entries[key]].key == key && s.entries[key] == d;
    }
  }

  /** Right after leader `d` finished below 500 its entry is under its key. */
  lemma FinishedIsThere(acts: seq<Action>, d: Call, response: Response)
    requires var s := Run(Init(), acts); d in s.calls && s.calls[d].Leading? && response.status < SERVER_ERROR
    ensures var done := Step(Run(Init(), acts), Finish(d, response)); There(done, d) && Succeeded(done.heap[d])
  {
    InvRun(Init(), acts);
  }

  lemma RunsEarlyFrom(done: State, d: Call, after: seq<Action>, s: State, c: Call, fingerprint: string, now: int)
    requires Inv(done) && There(done, d) && Succeeded(done.heap[d]) && s == Run(done, after)
    requires Newest(s, d) && c !in s.calls && c !in s.heap && now < s.heap[d].arrivedAt + TTL
    ensures Reruns(s, d, c, fingerprint, now) <==> SomeReadsPast(done, after, s.heap[d].arrivedAt + TTL)
  {
    ThereIffNoneReadPast(done, after, d);
    LeadsIffGone(s, d, c, fingerprint, now);
  }

  /**
   After leader `d` finished below 500, let `after` be any further steps in which its handler has not run again.
   A new call that reads a clock before d's expiry then runs it again if and only if some arrival in `after`, for
   whatever key, read a clock at or past that expiry.
   */
  lemma RunsEarlyIffReadPastExpiry(before: seq<Action>, done: State, d: Call, after: seq<Action>, s: State,
                                   c: Call, fingerprint: string, now: int)
    requires done == Run(Init(), before) && There(done, d) && Succeeded(done.heap[d])
    requires s == Run(done, after) && Newest(s, d) && c !in s.calls && c !in s.heap
    requires now < s.heap[d].arrivedAt + TTL
    ensures Reruns(s, d, c, fingerprint, now) <==> SomeReadsPast(done, after, s.heap[d].arrivedAt + TTL)
  {
    InvRun(Init(), before);
    RunsEarlyFrom(done, d, after, s, c, fingerprint, now);
  }
}
