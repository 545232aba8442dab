/**
 The iOS client's actor, which coalesces refreshes through a shared task and may be re-entered at
 every await, composed with the server's token families. `queue` lists the calls whose session
 load or save has completed on the session store and whose resumption on the client actor is due.

 History fields: `mine`, `accesses`, `spent` and `reuses` as on Android; `lost` counts committed
 rotations whose answer never arrived, `reordered` resumptions out of completion order, `overtaken` those of
 them that ended a refresh before a call resumed with the session it replaced, and `dropped` sign-outs that
 forgot a refresh in flight.
 */
module IosSingleFlight {
  import opened Options
  import opened RefreshFamilies
  import opened TokenPairs

  type Call = nat

  datatype Phase =
    | Sent(access: nat)                              // first attempt in flight
    | Unauthorized(access: nat)                      // answered 401; about to load the session
    | Loaded(access: nat, session: Option<Pair>)     // load done; resumption queued
    | Awaiting(owner: Call)                          // waiting for another call's task
    | Posting(current: Pair)                         // own task in flight
    | Granted(replacement: Pair)                     // own task succeeded; about to save
    | Rejected                                       // own task threw; about to forget it
    | Saved                                          // save done; resumption queued
    | Retrying                                       // second and last attempt
    | Failed                                         // about to clear the session
    | LoggedIn(pair: Pair)
    | Finished

  datatype Client = Client(
    server: State,
    store: Option<Pair>,
    calls: map<Call, Phase>,
    refreshTask: Option<Call>,
    queue: seq<Call>,
    mine: set<Hash>,
    accesses: set<nat>,
    spent: seq<nat>,
    reuses: nat,
    lost: nat,
    reordered: nat,
    overtaken: nat,
    dropped: nat)

  datatype Event =
    | Begin(c: Call)
    | Answer(c: Call, unauthorized: bool)
    | Load(c: Call)
    | Resume(i: nat)
    | ServerRefreshes(c: Call, access: nat, refresh: Hash, now: int, delivered: bool)
    | RequestLost(c: Call)
    | Unwind(c: Call)
    | Save(c: Call)
    | AwaitEnds(c: Call, ok: bool)
    | Retry(c: Call, ok: bool)
    | Clear(c: Call)
    | Login(c: Call, user: string, family: Family, access: nat, refresh: Hash, now: int)
    | SaveLogin(c: Call)
    | SignOut
    | ClearStored
    | Others(action: Action)

  function Fresh(): Client {
    Client(Init(), None, map[], None, [], {}, {}, [], 0, 0, 0, 0, 0)
  }

  function Move(s: Client, c: Call, p: Phase): Client {
    s.(calls := s.calls[c := p])
  }

  predicate At(s: Client, c: Call) {
    c in s.calls
  }

  predicate OwnsTask(p: Phase) {
    p.Posting? || p.Granted? || p.Rejected? || p.Saved?
  }

  predicate Queued(p: Phase) {
    p.Loaded? || p.Saved?
  }

  /** A call that failed with a session, loaded that same session, and has since seen it spent. */
  predicate Stale(s: Client, p: Phase) {
    p.Loaded? && p.session.Some? && p.session.value.access == p.access && !Unused(s.server, p.session.value.refresh)
  }

  /** The owner of a finished refresh resumes, and forgets it, before a call that holds the session it replaced. */
  predicate Overtakes(s: Client, i: nat)
    requires i < |s.queue| && At(s, s.queue[i])
  {
    s.calls[s.queue[i]].Saved? && exists c :: c in s.calls && Stale(s, s.calls[c])
  }

  /** The code between an await on the session store and the next suspension. */
  function ResumeStep(s: Client, i: nat): Client
    requires i < |s.queue| && At(s, s.queue[i])
  {
    var c := s.queue[i];
    var s' := s.(queue := s.queue[..i] + s.queue[i + 1..],
                 reordered := if i == 0 then s.reordered else s.reordered + 1,
                 overtaken := if Overtakes(s, i) then s.overtaken + 1 else s.overtaken);
    match s.calls[c]
    case Loaded(access, session) =>
      if session.None? then Move(s', c, Failed)
      else if session.value.access != access then Move(s', c, Retrying)
      else if s.refreshTask.Some? then Move(s', c, Awaiting(s.refreshTask.value))
      else Move(s', c, Posting(session.value)).(refreshTask := Some(c))
    case Saved => Move(s', c, Retrying).(refreshTask := None)
    case _ => s
  }

  function ServerStep(s: Client, c: Call, replacement: Pair, now: int, delivered: bool): Client
    requires At(s, c) && s.calls[c].Posting?
    requires replacement.refresh !in s.server.table && replacement.access !in s.accesses
  {
    var current := s.calls[c].current;
    var outcome := Rotate(s.server.table, current.refresh, replacement.refresh, now + REFRESH_TTL, now).1;
    var s' := s.(server := Step(s.server, Refresh(current.refresh, replacement.refresh, now)));
    match outcome
    case InvalidRefresh => Move(s', c, Rejected)
    case RefreshReuse => Move(s', c, Rejected).(reuses := s.reuses + 1)
    case Rotated(_) =>
      var s'' := s'.(mine := s.mine + {replacement.refresh}, accesses := s.accesses + {replacement.access},
                     spent := s.spent + [current.access]);
      if delivered then Move(s'', c, Granted(replacement))
      else Move(s'', c, Rejected).(lost := s.lost + 1)
  }

  function LoginStep(s: Client, c: Call, user: string, family: Family, pair: Pair, now: int): Client
    requires c !in s.calls && pair.refresh !in s.server.table && family !in s.server.tips
    requires pair.access !in s.accesses
  {
    Move(s, c, LoggedIn(pair)).(
      server := Step(s.server, Issue(user, family, pair.refresh, now)),
      mine := s.mine + {pair.refresh},
      accesses := s.accesses + {pair.access})
  }

  function Next(s: Client, e: Event): Client {
    match e
    case Begin(c) =>
      if c in s.calls then s
      else if s.store.None? then Move(s, c, Finished)
      else Move(s, c, Sent(s.store.value.access))
    case Answer(c, unauthorized) =>
      if !(At(s, c) && s.calls[c].Sent?) then s
      else if unauthorized then Move(s, c, Unauthorized(s.calls[c].access))
      else Move(s, c, Finished)
    case Load(c) =>
      if At(s, c) && s.calls[c].Unauthorized?
      then Move(s, c, Loaded(s.calls[c].access, s.store)).(queue := s.queue + [c]) else s
    case Resume(i) => if i < |s.queue| && At(s, s.queue[i]) then ResumeStep(s, i) else s
    case ServerRefreshes(c, access, refresh, now, delivered) =>
      if At(s, c) && s.calls[c].Posting? && refresh !in s.server.table && access !in s.accesses
      then ServerStep(s, c, Pair(access, refresh), now, delivered) else s
    case RequestLost(c) => if At(s, c) && s.calls[c].Posting? then Move(s, c, Rejected) else s
    case Unwind(c) =>
      if At(s, c) && s.calls[c].Rejected? then Move(s, c, Failed).(refreshTask := None) else s
    case Save(c) =>
      if At(s, c) && s.calls[c].Granted?
      then Move(s, c, Saved).(store := Some(s.calls[c].replacement), queue := s.queue + [c]) else s
    case AwaitEnds(c, ok) =>
      if At(s, c) && s.calls[c].Awaiting? then Move(s, c, if ok then Retrying else Failed) else s
    case Retry(c, ok) =>
      if At(s, c) && s.calls[c].Retrying? then Move(s, c, if ok then Finished else Failed) else s
    case Clear(c) => if At(s, c) && s.calls[c].Failed? then Move(s, c, Finished).(store := None) else s
    case Login(c, user, family, access, refresh, now) =>
      if c in s.calls || refresh in s.server.table || family in s.server.tips || access in s.accesses then s
      else LoginStep(s, c, user, family, Pair(access, refresh), now)
    case SaveLogin(c) =>
      if At(s, c) && s.calls[c].LoggedIn? then Move(s, c, Finished).(store := Some(s.calls[c].pair)) else s
    case SignOut =>
      s.(refreshTask := None, dropped := if s.refreshTask.Some? then s.dropped + 1 else s.dropped)
    case ClearStored => s.(store := None)
    case Others(action) =>
      if action.Refresh? && action.hash in s.mine then s else s.(server := Step(s.server, action))
  }

  function Replay(s: Client, events: seq<Event>): Client
    decreases |events|
  {
    if events == [] then s else Replay(Next(s, events[0]), events[1..])
  }

  // ----- The composed invariant -----

  predicate Good(s: Client, p: Pair) {
    Known(s, p) && Unused(s.server, p.refresh) && p.access !in s.spent
  }

  predicate Known(s: Client, p: Pair) {
    p.refresh in s.mine && p.access in s.accesses
  }

  predicate OwnerGranted(s: Client) {
    s.refreshTask.Some? && s.refreshTask.value in s.calls && s.calls[s.refreshTask.value].Granted?
  }

  /** The owner of the refresh task has what will replace the session, or has just saved it. */
  predicate OwnerBusy(s: Client) {
    s.refreshTask.Some? && s.refreshTask.value in s.calls
    && (s.calls[s.refreshTask.value].Granted? || s.calls[s.refreshTask.value].Saved?)
  }

  ghost predicate QueueMatches(s: Client) {
    && (forall i :: 0 <= i < |s.queue| ==> s.queue[i] in s.calls && Queued(s.calls[s.queue[i]]))
    && (forall c :: c in s.calls && Queued(s.calls[c]) ==> c in s.queue)
    && (forall i, j :: 0 <= i < j < |s.queue| ==> s.queue[i] != s.queue[j])
  }

  ghost predicate TaskHasOneOwner(s: Client) {
    && (s.refreshTask.Some? ==> s.refreshTask.value in s.calls && OwnsTask(s.calls[s.refreshTask.value]))
    && (forall c :: c in s.calls && OwnsTask(s.calls[c]) ==> s.refreshTask == Some(c))
  }

  function Carried(p: Phase): Option<Pair> {
    match p
    case Loaded(_, session) => session
    case Posting(current) => Some(current)
    case Granted(replacement) => Some(replacement)
    case LoggedIn(pair) => Some(pair)
    case _ => None
  }

  ghost predicate CarriedGood(s: Client) {
    forall c :: c in s.calls && Carried(s.calls[c]).Some? ==>
                  && Known(s, Carried(s.calls[c]).value)
                  && (s.calls[c].Loaded? || Good(s, Carried(s.calls[c]).value))
  }

  ghost predicate StoreGood(s: Client) {
    s.store.Some? ==> Known(s, s.store.value) && (OwnerGranted(s) || Good(s, s.store.value))
  }

  /** A session that a call would post is unspent as long as there is no task to join. */
  ghost predicate LoadsGood(s: Client) {
    forall c :: c in s.calls && s.calls[c].Loaded? && s.calls[c].session.Some?
                && s.calls[c].session.value.access == s.calls[c].access ==>
                  Good(s, s.calls[c].session.value) || OwnerBusy(s)
  }

  /** The pairs that calls carry, and the stored one. */
  ghost function Around(s: Client): set<Pair> {
    (set c | c in s.calls && Carried(s.calls[c]).Some? :: Carried(s.calls[c]).value)
    + (if s.store.Some? then {s.store.value} else {})
  }

  /** An access token tells its pair, and its rotation consumed that pair's refresh token. */
  ghost predicate PairsTold(s: Client) {
    && (forall p, q :: p in Around(s) && q in Around(s) && p.access == q.access ==> p == q)
    && (forall p :: p in Around(s) && p.access in s.spent ==> !Unused(s.server, p.refresh))
  }

  ghost predicate LoginsApart(s: Client) {
    forall c :: c in s.calls && s.calls[c].LoggedIn? ==>
                  && (s.store.Some? ==> Apart(s.store.value, s.calls[c].pair))
                  && forall d :: d in s.calls && d != c && Carried(s.calls[d]).Some? ==>
                                   Apart(Carried(s.calls[d]).value, s.calls[c].pair)
  }

  ghost predicate HistoryKnown(s: Client) {
    && (forall h :: h in s.mine ==> h in s.server.table)
    && (forall i :: 0 <= i < |s.spent| ==> s.spent[i] in s.accesses)
    && (forall i, j :: 0 <= i < j < |s.spent| ==> s.spent[i] != s.spent[j])
  }

  predicate Orderly(s: Client) {
    s.lost == 0 && s.overtaken == 0 && s.dropped == 0
  }

  ghost predicate Inv(s: Client) {
    Orderly(s) ==>
      && QueueMatches(s) && TaskHasOneOwner(s) && CarriedGood(s) && StoreGood(s)
      && LoadsGood(s) && PairsTold(s) && LoginsApart(s) && HistoryKnown(s)
      && s.reuses == 0
  }

  /** Every token known before a server step stays unused or used as it was, except the one presented. */
  lemma ServerActionKeeps(s: Client, s': Client, a: Action)
    requires HistoryKnown(s) && s'.server == Step(s.server, a)
    ensures forall h :: h in s.mine ==> h in s'.server.table
    ensures forall h :: h in s.mine && Unused(s.server, h) && !(a.Refresh? && a.hash == h) ==> Unused(s'.server, h)
    ensures forall h :: h in s.mine && !Unused(s.server, h) ==> !Unused(s'.server, h)
  {
    forall h | h in s.mine
      ensures h in s'.server.table
      ensures Unused(s.server, h) && !(a.Refresh? && a.hash == h) ==> Unused(s'.server, h)
      ensures !Unused(s.server, h) ==> !Unused(s'.server, h)
    {
      TableGrows(s.server, a, h);
      if !Unused(s.server, h) {
        UsedStays(s.server, a, h);
      }
      if Unused(s.server, h) && !(a.Refresh? && a.hash == h) {
        UnusedStep(s.server, a, h);
      }
    }
  }

  lemma AroundKnown(s: Client)
    requires CarriedGood(s) && StoreGood(s)
    ensures forall p :: p in Around(s) ==> Known(s, p)
  {
  }

  lemma OthersKeep(s: Client, action: Action)
    requires Inv(s) && Orderly(s)
    ensures Inv(Next(s, Others(action)))
  {
    var s' := Next(s, Others(action));
    if !(action.Refresh? && action.hash in s.mine) {
      ServerActionKeeps(s, s', action);
      forall p | Good(s, p) ensures Good(s', p) {
      }
      AroundKnown(s);
      assert Around(s') == Around(s);
    }
  }

  lemma LoginStaysApart(s: Client, c: Call, user: string, family: Family, pair: Pair, now: int)
    requires CarriedGood(s) && StoreGood(s) && LoginsApart(s) && HistoryKnown(s)
    requires c !in s.calls && pair.refresh !in s.server.table && family !in s.server.tips
    requires pair.access !in s.accesses
    ensures LoginsApart(LoginStep(s, c, user, family, pair, now))
  {
    forall p | Known(s, p) ensures Apart(p, pair) {
    }
  }

  lemma LoginKeeps(s: Client, c: Call, user: string, family: Family, pair: Pair, now: int)
    requires Inv(s) && Orderly(s)
    requires c !in s.calls && pair.refresh !in s.server.table && family !in s.server.tips
    requires pair.access !in s.accesses
    ensures Inv(LoginStep(s, c, user, family, pair, now))
  {
    LoginStaysApart(s, c, user, family, pair, now);
    LoginKeepsPairs(s, c, user, family, pair, now);
    LoginTold(s, c, user, family, pair, now);
  }

  lemma LoginKeepsPairs(s: Client, c: Call, user: string, family: Family, pair: Pair, now: int)
    requires Inv(s) && Orderly(s)
    requires c !in s.calls && pair.refresh !in s.server.table && family !in s.server.tips
    requires pair.access !in s.accesses
    ensures var s' := LoginStep(s, c, user, family, pair, now);
            CarriedGood(s') && StoreGood(s') && LoadsGood(s') && HistoryKnown(s')
  {
    var s' := LoginStep(s, c, user, family, pair, now);
    ServerActionKeeps(s, s', Issue(user, family, pair.refresh, now));
    forall p | Good(s, p) ensures Good(s', p) {
    }
    assert Good(s', pair);
  }

  lemma LoginTold(s: Client, c: Call, user: string, family: Family, pair: Pair, now: int)
    requires Inv(s) && Orderly(s)
    requires c !in s.calls && pair.refresh !in s.server.table && family !in s.server.tips
    requires pair.access !in s.accesses
    ensures PairsTold(LoginStep(s, c, user, family, pair, now))
  {
    var s' := LoginStep(s, c, user, family, pair, now);
    ServerActionKeeps(s, s', Issue(user, family, pair.refresh, now));
    AroundKnown(s);
    forall d | d in s'.calls && d != c ensures d in s.calls && s'.calls[d] == s.calls[d] {
    }
    forall p | p in Around(s') ensures p == pair || p in Around(s) {
    }
  }

  lemma ServerKeeps(s: Client, c: Call, replacement: Pair, now: int, delivered: bool)
    requires Inv(s) && Orderly(s)
    requires At(s, c) && s.calls[c].Posting?
    requires replacement.refresh !in s.server.table && replacement.access !in s.accesses
    ensures Inv(ServerStep(s, c, replacement, now, delivered))
  {
    var current := s.calls[c].current;
    var s' := ServerStep(s, c, replacement, now, delivered);
    assert Good(s, current);
    UnusedNotReuse(s.server, current.refresh, replacement.refresh, now + REFRESH_TTL, now);
    if !Rotate(s.server.table, current.refresh, replacement.refresh, now + REFRESH_TTL, now).1.Rotated? {
      RefusedKeeps(s, c, replacement, now, delivered);
    } else if delivered {
      GrantKeepsShape(s, c, replacement, now);
      GrantKeepsPairs(s, c, replacement, now);
      GrantTold(s, c, replacement, now);
    }
  }

  /** An expired or revoked token is refused and nothing is spent. */
  lemma RefusedKeeps(s: Client, c: Call, replacement: Pair, now: int, delivered: bool)
    requires Inv(s) && Orderly(s) && At(s, c) && s.calls[c].Posting?
    requires replacement.refresh !in s.server.table && replacement.access !in s.accesses
    requires Rotate(s.server.table, s.calls[c].current.refresh, replacement.refresh, now + REFRESH_TTL,
        now).1.InvalidRefresh?
    ensures Inv(ServerStep(s, c, replacement, now, delivered))
  {
    var s' := ServerStep(s, c, replacement, now, delivered);
    assert s'.server.table == s.server.table && s' == Move(s, c, Rejected).(server := s'.server);
    assert Around(s') <= Around(s);
  }

  ghost predicate Grants(s: Client, c: Call, replacement: Pair, now: int) {
    && At(s, c) && s.calls[c].Posting?
    && replacement.refresh !in s.server.table && replacement.access !in s.accesses
    && Rotate(s.server.table, s.calls[c].current.refresh, replacement.refresh, now + REFRESH_TTL, now).1.Rotated?
  }

  lemma GrantKeepsShape(s: Client, c: Call, replacement: Pair, now: int)
    requires Inv(s) && Orderly(s) && Grants(s, c, replacement, now)
    ensures var s' := ServerStep(s, c, replacement, now, true);
            QueueMatches(s') && TaskHasOneOwner(s') && LoginsApart(s') && OwnerGranted(s') && s'.reuses == 0
  {
    forall p | Known(s, p) ensures Apart(p, replacement) {
    }
  }

  lemma GrantKeepsPairs(s: Client, c: Call, replacement: Pair, now: int)
    requires Inv(s) && Orderly(s) && Grants(s, c, replacement, now)
    ensures var s' := ServerStep(s, c, replacement, now, true);
            CarriedGood(s') && StoreGood(s') && LoadsGood(s') && HistoryKnown(s')
  {
    var current := s.calls[c].current;
    var s' := ServerStep(s, c, replacement, now, true);
    ServerActionKeeps(s, s', Refresh(current.refresh, replacement.refresh, now));
    assert Good(s', replacement);
    forall d | d in s'.calls && d != c && Carried(s'.calls[d]).Some?
      ensures d in s.calls && s'.calls[d] == s.calls[d] && (s'.calls[d].Loaded? || s'.calls[d].LoggedIn?)
    {
    }
  }

  lemma GrantTold(s: Client, c: Call, replacement: Pair, now: int)
    requires Inv(s) && Orderly(s) && Grants(s, c, replacement, now)
    ensures PairsTold(ServerStep(s, c, replacement, now, true))
  {
    var current := s.calls[c].current;
    var s' := ServerStep(s, c, replacement, now, true);
    ServerActionKeeps(s, s', Refresh(current.refresh, replacement.refresh, now));
    AroundKnown(s);
    assert current in Around(s) && !Unused(s'.server, current.refresh);
    forall p | p in Around(s') ensures p == replacement || p in Around(s) {
    }
  }

  predicate Local(e: Event) {
    !e.ServerRefreshes? && !e.Login? && !e.Others?
  }

  lemma LocalHistory(s: Client, e: Event)
    requires Local(e)
    ensures var s' := Next(s, e);
            && s'.server == s.server && s'.mine == s.mine && s'.accesses == s.accesses
            && s'.spent == s.spent && s'.reuses == s.reuses
            && (Orderly(s') ==> Orderly(s))
    ensures forall p :: Good(s, p) <==> Good(Next(s, e), p)
  {
  }

  /** Resuming a call removes it from the queue and moves nobody else. */
  lemma ResumeAt(s: Client, i: nat)
    requires QueueMatches(s) && i < |s.queue|
    ensures var s' := Next(s, Resume(i));
            && s'.queue == s.queue[..i] + s.queue[i + 1..]
            && s'.store == s.store
            && s'.calls.Keys == s.calls.Keys && !Queued(s'.calls[s.queue[i]])
            && (forall c :: c in s.calls && c != s.queue[i] ==> s'.calls[c] == s.calls[c])
            && (forall k :: 0 <= k < |s'.queue| ==> s'.queue[k] == s.queue[if k < i then k else k + 1])
  {
  }

  lemma ResumeQueue(s: Client, i: nat)
    requires QueueMatches(s) && i < |s.queue|
    ensures QueueMatches(Next(s, Resume(i)))
  {
    ResumeAt(s, i);
    var s' := Next(s, Resume(i));
    forall c | c in s'.calls && Queued(s'.calls[c]) ensures c in s'.queue {
      var k :| 0 <= k < |s.queue| && s.queue[k] == c;
      assert s'.queue[if k < i then k else k - 1] == c;
    }
  }

  lemma AppendQueue(s: Client, e: Event)
    requires QueueMatches(s) && (e.Load? || e.Save?) && Next(s, e) != s
    ensures QueueMatches(Next(s, e))
  {
    var s' := Next(s, e);
    assert s'.queue == s.queue + [e.c] && s'.queue[|s.queue|] == e.c;
    assert !Queued(s.calls[e.c]);
  }

  lemma LocalQueue(s: Client, e: Event)
    requires QueueMatches(s) && Local(e)
    ensures QueueMatches(Next(s, e))
  {
    var s' := Next(s, e);
    if s' == s {
    } else if e.Resume? {
      ResumeQueue(s, e.i);
    } else if e.Load? || e.Save? {
      AppendQueue(s, e);
    } else {
      assert s'.queue == s.queue;
      forall i | 0 <= i < |s.queue| ensures s.queue[i] in s'.calls && s'.calls[s.queue[i]] == s.calls[s.queue[i]] {
      }
    }
  }

  lemma LocalTask(s: Client, e: Event)
    requires QueueMatches(s) && TaskHasOneOwner(s) && Local(e) && (e == SignOut ==> s.refreshTask.None?)
    ensures TaskHasOneOwner(Next(s, e))
  {
    if e.Resume? && e.i < |s.queue| {
      ResumeAt(s, e.i);
    }
  }

  /** With no task to join, whoever resumes posts an unspent session. */
  lemma ResumedIsGood(s: Client, i: nat)
    requires Inv(s) && Orderly(s) && i < |s.queue| && Next(s, Resume(i)).calls[s.queue[i]].Posting?
    ensures Good(s, Next(s, Resume(i)).calls[s.queue[i]].current)
  {
    assert s.queue[i] in s.calls && Queued(s.calls[s.queue[i]]);
  }

  lemma ResumeCarried(s: Client, i: nat)
    requires Inv(s) && Orderly(s) && i < |s.queue|
    ensures CarriedGood(Next(s, Resume(i)))
  {
    var s' := Next(s, Resume(i));
    LocalHistory(s, Resume(i));
    ResumeAt(s, i);
    if s'.calls[s.queue[i]].Posting? {
      ResumedIsGood(s, i);
    }
  }

  lemma LocalCarried(s: Client, e: Event)
    requires Inv(s) && Orderly(s) && Local(e)
    ensures CarriedGood(Next(s, e))
  {
    var s' := Next(s, e);
    if s' == s {
    } else if e.Resume? {
      ResumeCarried(s, e.i);
    } else {
      LocalHistory(s, e);
      forall c | c in s'.calls && Carried(s'.calls[c]).Some?
        ensures (c in s.calls && s'.calls[c] == s.calls[c]) || (s'.calls[c].Loaded? && Carried(s'.calls[c]) == s.store)
      {
      }
    }
  }

  lemma LocalStore(s: Client, e: Event)
    requires Inv(s) && Orderly(s) && Local(e) && Orderly(Next(s, e))
    ensures StoreGood(Next(s, e))
  {
    var s' := Next(s, e);
    LocalHistory(s, e);
    if s'.store.Some? && s' != s {
      if e.Save? || e.SaveLogin? {
        assert Good(s, s'.store.value);
      } else {
        assert s'.store == s.store && (OwnerGranted(s) ==> OwnerGranted(s'));
      }
    }
  }

  /** A saved owner that overtakes nobody leaves only unspent sessions behind. */
  lemma SavedLeavesGood(s: Client, i: nat, c: Call)
    requires Inv(s) && Orderly(s) && i < |s.queue| && At(s, s.queue[i]) && s.calls[s.queue[i]].Saved?
            && !Overtakes(s, i)
    requires c in s.calls && s.calls[c].Loaded? && s.calls[c].session.Some?
    requires s.calls[c].session.value.access == s.calls[c].access
    ensures Good(s, s.calls[c].session.value)
  {
    assert !Stale(s, s.calls[c]);
    assert s.calls[c].session.value in Around(s);
  }

  lemma LocalLoads(s: Client, e: Event)
    requires Inv(s) && Orderly(s) && Local(e) && Orderly(Next(s, e))
    ensures LoadsGood(Next(s, e))
  {
    var s' := Next(s, e);
    LocalHistory(s, e);
    forall c | c in s'.calls && s'.calls[c].Loaded? && s'.calls[c].session.Some?
               && s'.calls[c].session.value.access == s'.calls[c].access
      ensures Good(s', s'.calls[c].session.value) || OwnerBusy(s')
    {
      if e == Load(c) && s' != s {
        assert s'.calls[c].session == s.store;
      } else {
        LoadFrom(s, e, c);
        if OwnerBusy(s) && !OwnerBusy(s') {
          OwnerLeaves(s, e);
          SavedLeavesGood(s, e.i, c);
        }
      }
    }
  }

  lemma LoadFrom(s: Client, e: Event, c: Call)
    requires QueueMatches(s) && Local(e) && c in Next(s, e).calls && Next(s, e).calls[c].Loaded?
    requires e != Load(c) || Next(s, e) == s
    ensures c in s.calls && s.calls[c] == Next(s, e).calls[c]
  {
    if e.Resume? && e.i < |s.queue| {
      ResumeAt(s, e.i);
    }
  }

  /** The task's owner stops being busy only by resuming after its save. */
  lemma OwnerLeaves(s: Client, e: Event)
    requires QueueMatches(s) && TaskHasOneOwner(s) && Local(e) && s.dropped == Next(s, e).dropped
    requires OwnerBusy(s) && !OwnerBusy(Next(s, e))
    ensures e.Resume? && e.i < |s.queue| && At(s, s.queue[e.i]) && s.calls[s.queue[e.i]].Saved?
    ensures Next(s, e).overtaken == s.overtaken ==> !Overtakes(s, e.i)
  {
    if e.Resume? && e.i < |s.queue| {
      ResumeAt(s, e.i);
    }
  }

  /** No new login; every carried pair and the stored pair come from where they were before. */
  ghost predicate FromBefore(s: Client, s': Client, from: Call) {
    && (forall d :: d in s'.calls && Carried(s'.calls[d]).Some? ==> CarriedBefore(s, d, s'.calls[d]))
    && (|| s'.store.None? || s'.store == s.store
        || (&& from in s.calls && Carried(s.calls[from]) == s'.store
            && from in s'.calls && !s'.calls[from].LoggedIn?))
  }

  ghost predicate CarriedBefore(s: Client, d: Call, p: Phase) {
    && d in s.calls && (Carried(p) == Carried(s.calls[d]) || Carried(p) == s.store)
    && (p.LoggedIn? ==> s.calls[d] == p)
  }

  lemma LoginsFramed(s: Client, s': Client, from: Call)
    requires LoginsApart(s) && FromBefore(s, s', from)
    ensures LoginsApart(s')
  {
    forall c | c in s'.calls && s'.calls[c].LoggedIn?
      ensures s'.store.Some? ==> Apart(s'.store.value, s'.calls[c].pair)
      ensures forall d :: d in s'.calls && d != c && Carried(s'.calls[d]).Some? ==>
                            Apart(Carried(s'.calls[d]).value, s'.calls[c].pair)
    {
      assert CarriedBefore(s, c, s'.calls[c]) && c in s.calls && s.calls[c] == s'.calls[c];
      forall d | d in s'.calls && d != c && Carried(s'.calls[d]).Some?
        ensures Apart(Carried(s'.calls[d]).value, s'.calls[c].pair)
      {
        assert CarriedBefore(s, d, s'.calls[d]);
      }
    }
  }

  /** What a call carries is what it carried before, or the session it has just loaded. */
  lemma LocalSources(s: Client, e: Event, d: Call)
    requires QueueMatches(s) && Local(e)
    requires d in Next(s, e).calls && Carried(Next(s, e).calls[d]).Some?
    ensures d in s.calls
    ensures var p := Next(s, e).calls[d];
            Carried(p) == Carried(s.calls[d]) || (Carried(p) == s.store && !p.LoggedIn?)
    ensures Next(s, e).calls[d].LoggedIn? ==> s.calls[d] == Next(s, e).calls[d]
  {
    if e.Resume? && Next(s, e) != s {
      ResumeAt(s, e.i);
    }
  }

  lemma LocalStored(s: Client, e: Event)
    requires Local(e)
    ensures var s' := Next(s, e);
            || s'.store.None? || s'.store == s.store
            || (&& (e.Save? || e.SaveLogin?)
                && e.c in s.calls && Carried(s.calls[e.c]) == s'.store
                && e.c in s'.calls && !s'.calls[e.c].LoggedIn?)
  {
  }

  lemma LocalFrom(s: Client, e: Event)
    requires QueueMatches(s) && Local(e)
    ensures FromBefore(s, Next(s, e), if e.Save? || e.SaveLogin? then e.c else 0)
  {
    var s' := Next(s, e);
    LocalStored(s, e);
    forall d | d in s'.calls && Carried(s'.calls[d]).Some? ensures CarriedBefore(s, d, s'.calls[d]) {
      LocalSources(s, e, d);
    }
  }

  lemma LocalLogins(s: Client, e: Event)
    requires QueueMatches(s) && LoginsApart(s) && Local(e)
    ensures LoginsApart(Next(s, e))
  {
    LocalFrom(s, e);
    LoginsFramed(s, Next(s, e), if e.Save? || e.SaveLogin? then e.c else 0);
  }

  lemma LocalAround(s: Client, e: Event)
    requires QueueMatches(s) && Local(e)
    ensures Around(Next(s, e)) <= Around(s)
  {
    var s' := Next(s, e);
    LocalStored(s, e);
    forall p | p in Around(s') ensures p in Around(s) {
      if s'.store == Some(p) {
        assert s.store == Some(p) || Carried(s.calls[e.c]) == Some(p);
      } else {
        var d :| d in s'.calls && Carried(s'.calls[d]) == Some(p);
        LocalSources(s, e, d);
      }
    }
  }

  lemma LocalTold(s: Client, e: Event)
    requires QueueMatches(s) && PairsTold(s) && Local(e)
    ensures PairsTold(Next(s, e))
  {
    LocalAround(s, e);
    LocalHistory(s, e);
  }

  lemma LocalKeeps(s: Client, e: Event)
    requires Inv(s) && Local(e)
    ensures Inv(Next(s, e))
  {
    LocalHistory(s, e);
    if Orderly(Next(s, e)) {
      LocalQueue(s, e);
      LocalTask(s, e);
      LocalCarried(s, e);
      LocalStore(s, e);
      LocalLoads(s, e);
      LocalLogins(s, e);
      LocalTold(s, e);
    }
  }

  lemma InvNext(s: Client, e: Event)
    requires Inv(s)
    ensures Inv(Next(s, e))
  {
    if Orderly(s) {
      match e
      case Others(action) => OthersKeep(s, action);
      case Login(c, user, family, access, refresh, now) =>
        if !(c in s.calls || refresh in s.server.table || family in s.server.tips || access in s.accesses) {
          LoginKeeps(s, c, user, family, Pair(access, refresh), now);
        }
      case ServerRefreshes(c, access, refresh, now, delivered) =>
        if At(s, c) && s.calls[c].Posting? && refresh !in s.server.table && access !in s.accesses {
          ServerKeeps(s, c, Pair(access, refresh), now, delivered);
        }
      case _ => LocalKeeps(s, e);
    }
  }

  lemma {:induction false} InvReplay(s: Client, events: seq<Event>)
    requires Inv(s)
    ensures Inv(Replay(s, events))
    decreases |events|
  {
    if events != [] {
      InvNext(s, events[0]);
      InvReplay(Next(s, events[0]), events[1..]);
    }
  }

  /**
   In every run where committed refreshes are answered, no owner of a refresh resumes from its save before a
   call that holds the session it replaced, and no sign-out forgets a refresh in flight, the server never
   reports reuse to this client and no access token is refreshed twice. Any other resumption may come in
   any order.
   */
  lemma NeverReplaysConsumedToken(events: seq<Event>)
    requires Orderly(Replay(Fresh(), events))
    ensures var s := Replay(Fresh(), events);
            && s.reuses == 0
            && forall i, j :: 0 <= i < j < |s.spent| ==> s.spent[i] != s.spent[j]
  {
    InvReplay(Fresh(), events);
  }

  // ----- Two of the conditions are needed: runs in which only that one fails -----

  lemma ReplayThree(s: Client, a: Event, b: Event, c: Event)
    ensures Replay(s, [a, b, c]) == Next(Next(Next(s, a), b), c)
  {
    assert [a, b, c][1..] == [b, c] && [b, c][1..] == [c];
    assert Replay(s, [a, b, c]) == Replay(Next(s, a), [b, c]);
    assert Replay(Next(s, a), [b, c]) == Replay(Next(Next(s, a), b), [c]);
    assert Replay(Next(Next(s, a), b), [c]) == Replay(Next(Next(Next(s, a), b), c), []);
  }

  lemma {:induction false} ReplayConcat(s: Client, events: seq<Event>, more: seq<Event>)
    ensures Replay(s, events + more) == Replay(Replay(s, events), more)
    decreases |events|
  {
    if events == [] {
      assert events + more == more;
    } else {
      assert (events + more)[1..] == events[1..] + more;
      ReplayConcat(Next(s, events[0]), events[1..], more);
    }
  }

  const P0: Pair := Pair(100, "")

  predicate Counts(s: Client, reuses: nat, reordered: nat, dropped: nat) {
    s.reuses == reuses && s.lost == 0 && s.reordered == reordered && s.overtaken == reordered && s.dropped == dropped
  }

  /** Signed in with `P0`; call 1 is in its first attempt. */
  predicate SignedIn(s: Client) {
    && s.store == Some(P0) && s.refreshTask == None && s.queue == [] && s.accesses == {100}
    && s.server.table == map["" := NewToken("u", "f", REFRESH_TTL)] && s.server.tips == map["f" := ""]
    && s.calls == map[0 := Finished, 1 := Sent(100)]
    && Counts(s, 0, 0, 0)
  }

  lemma SignsIn()
    ensures SignedIn(Replay(Fresh(), [Login(0, "u", "f", 100, "", 0), SaveLogin(0), Begin(1)]))
  {
    ReplayThree(Fresh(), Login(0, "u", "f", 100, "", 0), SaveLogin(0), Begin(1));
  }

  /** Call 2 loads the session before call 1 saves the replacement, but resumes after call 1 has finished. */
  function OutOfOrder(): seq<Event> {
    [Login(0, "u", "f", 100, "", 0), SaveLogin(0), Begin(1)]
    + [Begin(2), Answer(1, true), Answer(2, true)]
    + [Load(1), Resume(0), Load(2)]
    + [ServerRefreshes(1, 101, "b", 0, true), Save(1), Resume(1)]
    + [Resume(0), ServerRefreshes(2, 102, "bb", 0, true), Unwind(2)]
  }

  lemma Loads(s: Client, c: Call, access: nat)
    requires c in s.calls && s.calls[c] == Unauthorized(access)
    ensures Next(s, Load(c)) == s.(queue := s.queue + [c], calls := s.calls[c := Loaded(access, s.store)])
  {
  }

  lemma Posts(s: Client, c: Call, p: Pair)
    requires s.queue == [c] && s.refreshTask == None && c in s.calls && s.calls[c] == Loaded(p.access, Some(p))
    ensures Next(s, Resume(0)) == s.(queue := [], refreshTask := Some(c), calls := s.calls[c := Posting(p)])
  {
    assert s.queue[..0] + s.queue[1..] == [];
  }

  lemma BothRejected(s: Client)
    requires SignedIn(s)
    ensures Replay(s, [Begin(2), Answer(1, true), Answer(2, true)])
            == s.(calls := map[0 := Finished, 1 := Unauthorized(100), 2 := Unauthorized(100)])
  {
    ReplayThree(s, Begin(2), Answer(1, true), Answer(2, true));
  }

  lemma FirstPostsSecondLoads(s: Client)
    requires s.store == Some(P0) && s.refreshTask == None && s.queue == []
    requires s.calls == map[0 := Finished, 1 := Unauthorized(100), 2 := Unauthorized(100)]
    ensures Replay(s, [Load(1), Resume(0), Load(2)])
            == s.(calls := map[0 := Finished, 1 := Posting(P0), 2 := Loaded(100, Some(P0))],
                  refreshTask := Some(1), queue := [2])
  {
    ReplayThree(s, Load(1), Resume(0), Load(2));
    Loads(s, 1, 100);
    var s1 := Next(s, Load(1));
    assert s1.queue == [1];
    Posts(s1, 1, P0);
    var s2 := Next(s1, Resume(0));
    Loads(s2, 2, 100);
    assert s2.queue + [2] == [2];
  }

  lemma FirstGranted(s: Client)
    requires s.refreshTask == Some(1) && s.queue == [2] && s.accesses == {100} && Counts(s, 0, 0, 0)
    requires s.server.table == map["" := NewToken("u", "f", REFRESH_TTL)] && s.server.tips == map["f" := ""]
    requires s.calls == map[0 := Finished, 1 := Posting(P0), 2 := Loaded(100, Some(P0))]
    ensures var s' := Next(s, ServerRefreshes(1, 101, "b", 0, true));
            && s'.refreshTask == Some(1) && s'.queue == [2] && s'.accesses == {100, 101} && Counts(s', 0, 0, 0)
            && s'.calls == map[0 := Finished, 1 := Granted(Pair(101, "b")), 2 := Loaded(100, Some(P0))]
            && s'.server.table.Keys == {"", "b"}
            && s'.server.table[""] == NewToken("u", "f", REFRESH_TTL).(usedAt := Some(0))
  {
  }

  lemma FirstFinishesEarly(s: Client)
    requires s.refreshTask == Some(1) && s.queue == [2] && s.accesses == {100} && Counts(s, 0, 0, 0)
    requires s.server.table == map["" := NewToken("u", "f", REFRESH_TTL)] && s.server.tips == map["f" := ""]
    requires s.calls == map[0 := Finished, 1 := Posting(P0), 2 := Loaded(100, Some(P0))]
    ensures var s' := Replay(s, [ServerRefreshes(1, 101, "b", 0, true), Save(1), Resume(1)]);
            && s'.refreshTask == None && s'.queue == [2] && s'.accesses == {100, 101}
            && 2 in s'.calls && s'.calls[2] == Loaded(100, Some(P0)) && Counts(s', 0, 1, 0)
            && s'.server.table.Keys == {"", "b"}
            && s'.server.table[""] == NewToken("u", "f", REFRESH_TTL).(usedAt := Some(0))
  {
    ReplayThree(s, ServerRefreshes(1, 101, "b", 0, true), Save(1), Resume(1));
    FirstGranted(s);
    var s1 := Next(s, ServerRefreshes(1, 101, "b", 0, true));
    FirstSaves(s1);
    FirstOvertakes(Next(s1, Save(1)));
  }

  lemma FirstSaves(s: Client)
    requires s.queue == [2] && 1 in s.calls && s.calls[1] == Granted(Pair(101, "b"))
    ensures Next(s, Save(1)) == s.(store := Some(Pair(101, "b")), queue := [2, 1], calls := s.calls[1 := Saved])
  {
  }

  lemma FirstOvertakes(s: Client)
    requires s.queue == [2, 1] && Counts(s, 0, 0, 0)
    requires s.calls == map[0 := Finished, 1 := Saved, 2 := Loaded(100, Some(P0))]
    requires !Unused(s.server, P0.refresh)
    ensures var s' := Next(s, Resume(1));
            && s'.refreshTask == None && s'.queue == [2] && s'.server == s.server && s'.accesses == s.accesses
            && s'.calls == s.calls[1 := Retrying] && Counts(s', 0, 1, 0)
  {
    assert Stale(s, s.calls[2]) && Overtakes(s, 1);
    assert s.queue[..1] + s.queue[2..] == [2];
  }

  lemma SecondPostsStale(s: Client)
    requires s.refreshTask == None && s.queue == [2] && s.accesses == {100, 101}
    requires 2 in s.calls && s.calls[2] == Loaded(100, Some(P0)) && Counts(s, 0, 1, 0)
    requires s.server.table.Keys == {"", "b"}
    requires s.server.table[""] == NewToken("u", "f", REFRESH_TTL).(usedAt := Some(0))
    ensures Counts(Replay(s, [Resume(0), ServerRefreshes(2, 102, "bb", 0, true), Unwind(2)]), 1, 1, 0)
  {
    ReplayThree(s, Resume(0), ServerRefreshes(2, 102, "bb", 0, true), Unwind(2));
    Posts(s, 2, P0);
    SecondPostsUsed(Next(s, Resume(0)));
  }

  lemma SecondPostsUsed(s: Client)
    requires Counts(s, 0, 1, 0) && s.accesses == {100, 101} && 2 in s.calls && s.calls[2] == Posting(P0)
    requires s.server.table.Keys == {"", "b"}
    requires s.server.table[""] == NewToken("u", "f", REFRESH_TTL).(usedAt := Some(0))
    ensures var s' := Next(s, ServerRefreshes(2, 102, "bb", 0, true));
            Counts(s', 1, 1, 0) && Counts(Next(s', Unwind(2)), 1, 1, 0)
  {
  }

  /** One resumption out of order is enough for a reuse report, with every answer delivered. */
  lemma ReorderingCausesReuse()
    ensures Counts(Replay(Fresh(), OutOfOrder()), 1, 1, 0)
  {
    var first := [Login(0, "u", "f", 100, "", 0), SaveLogin(0), Begin(1)];
    var second := [Begin(2), Answer(1, true), Answer(2, true)];
    var third := [Load(1), Resume(0), Load(2)];
    var fourth := [ServerRefreshes(1, 101, "b", 0, true), Save(1), Resume(1)];
    var fifth := [Resume(0), ServerRefreshes(2, 102, "bb", 0, true), Unwind(2)];
    ReplayConcat(Fresh(), first + second + third + fourth, fifth);
    ReplayConcat(Fresh(), first + second + third, fourth);
    ReplayConcat(Fresh(), first + second, third);
    ReplayConcat(Fresh(), first, second);
    SignsIn();
    var s3 := Replay(Fresh(), first);
    BothRejected(s3);
    FirstPostsSecondLoads(Replay(s3, second));
    var s9 := Replay(Replay(s3, second), third);
    FirstFinishesEarly(s9);
    SecondPostsStale(Replay(s9, fourth));
  }

  const P1: Pair := Pair(200, "cc")

  /**
   Signing out forgets call 1's task but does not end it. After a new login call 3 refreshes; call 1
   then unwinds and forgets call 3's task, so call 4 posts the token that call 3 has just consumed.
   */
  function SignOutInFlight(): seq<Event> {
    [Login(0, "u", "f", 100, "", 0), SaveLogin(0), Begin(1)]
    + [Answer(1, true), Load(1), Resume(0)]
    + [SignOut, ClearStored, Login(2, "u", "ff", 200, "cc", 0)]
    + [SaveLogin(2), Begin(3), Begin(4)]
    + [Answer(3, true), Answer(4, true), Load(3)]
    + [Resume(0), Load(4), RequestLost(1)]
    + [ServerRefreshes(3, 201, "b", 0, true), Unwind(1), Resume(0)]
    + [ServerRefreshes(4, 202, "ccc", 0, true), Unwind(4), ClearStored]
  }

  lemma ForgetsFirstTask(s: Client)
    requires SignedIn(s)
    ensures var s' := Replay(Replay(s, [Answer(1, true), Load(1), Resume(0)]),
                             [SignOut, ClearStored, Login(2, "u", "ff", 200, "cc", 0)]);
            && s'.calls == map[0 := Finished, 1 := Posting(P0), 2 := LoggedIn(P1)]
            && s'.refreshTask == None && s'.queue == [] && s'.accesses == {100, 200} && Counts(s', 0, 0, 1)
            && s'.server.table == map["" := NewToken("u", "f", REFRESH_TTL), "cc" := NewToken("u", "ff", REFRESH_TTL)]
  {
    ReplayThree(s, Answer(1, true), Load(1), Resume(0));
    var s1 := Replay(s, [Answer(1, true), Load(1), Resume(0)]);
    assert s1 == s.(calls := map[0 := Finished, 1 := Posting(P0)], refreshTask := Some(1));
    ReplayThree(s1, SignOut, ClearStored, Login(2, "u", "ff", 200, "cc", 0));
    var s2 := Next(Next(s1, SignOut), ClearStored);
    assert s2 == s1.(refreshTask := None, dropped := 1, store := None);
    LogsInAgain(s2);
  }

  lemma LogsInAgain(s: Client)
    requires s.calls == map[0 := Finished, 1 := Posting(P0)] && s.accesses == {100}
    requires s.server.table == map["" := NewToken("u", "f", REFRESH_TTL)] && s.server.tips == map["f" := ""]
    ensures var s' := Next(s, Login(2, "u", "ff", 200, "cc", 0));
            && s'.calls == s.calls[2 := LoggedIn(P1)] && s'.accesses == {100, 200}
            && s'.refreshTask == s.refreshTask && s'.queue == s.queue && s'.store == s.store
            && s'.reuses == s.reuses && s'.lost == s.lost && s'.dropped == s.dropped
            && s'.reordered == s.reordered && s'.overtaken == s.overtaken
            && s'.server.table == s.server.table["cc" := NewToken("u", "ff", REFRESH_TTL)]
  {
  }

  lemma SignsInAgain(s: Client)
    requires s.calls == map[0 := Finished, 1 := Posting(P0), 2 := LoggedIn(P1)]
    ensures Replay(s, [SaveLogin(2), Begin(3), Begin(4)])
            == s.(store := Some(P1),
                  calls := map[0 := Finished, 1 := Posting(P0), 2 := Finished, 3 := Sent(200), 4 := Sent(200)])
  {
    ReplayThree(s, SaveLogin(2), Begin(3), Begin(4));
    var s1 := Next(s, SaveLogin(2));
    assert s1 == s.(store := Some(P1), calls := s.calls[2 := Finished]);
    BeginsWith(s1, 3, P1);
    BeginsWith(Next(s1, Begin(3)), 4, P1);
  }

  lemma BeginsWith(s: Client, c: Call, p: Pair)
    requires c !in s.calls && s.store == Some(p)
    ensures Next(s, Begin(c)) == s.(calls := s.calls[c := Sent(p.access)])
  {
  }

  lemma BothRejectedAgain(s: Client)
    requires s.store == Some(P1) && s.queue == []
    requires s.calls == map[0 := Finished, 1 := Posting(P0), 2 := Finished, 3 := Sent(200), 4 := Sent(200)]
    ensures Replay(s, [Answer(3, true), Answer(4, true), Load(3)])
            == s.(queue := [3],
                  calls := map[0 := Finished, 1 := Posting(P0), 2 := Finished,
                               3 := Loaded(200, Some(P1)), 4 := Unauthorized(200)])
  {
    ReplayThree(s, Answer(3, true), Answer(4, true), Load(3));
    assert Next(s, Answer(3, true))
        == s.(calls := map[0 := Finished, 1 := Posting(P0), 2 := Finished, 3 := Unauthorized(200), 4 := Sent(200)]);
  }

  lemma ThirdPosts(s: Client)
    requires s.store == Some(P1) && s.queue == [3] && s.refreshTask == None && Counts(s, 0, 0, 1)
    requires s.calls == map[0 := Finished, 1 := Posting(P0), 2 := Finished,
                            3 := Loaded(200, Some(P1)), 4 := Unauthorized(200)]
    ensures var s' := Replay(s, [Resume(0), Load(4), RequestLost(1)]);
            s' == s.(queue := [4], refreshTask := Some(3),
                     calls := map[0 := Finished, 1 := Rejected, 2 := Finished,
                                  3 := Posting(P1), 4 := Loaded(200, Some(P1))])
  {
    ReplayThree(s, Resume(0), Load(4), RequestLost(1));
    Posts(s, 3, P1);
    var s1 := Next(s, Resume(0));
    Loads(s1, 4, 200);
    assert s1.queue + [4] == [4];
  }

  lemma ThirdGranted(s: Client)
    requires s.queue == [4] && s.refreshTask == Some(3) && Counts(s, 0, 0, 1) && s.accesses == {100, 200}
    requires s.server.table == map["" := NewToken("u", "f", REFRESH_TTL), "cc" := NewToken("u", "ff", REFRESH_TTL)]
    requires s.calls == map[0 := Finished, 1 := Rejected, 2 := Finished, 3 := Posting(P1), 4 := Loaded(200, Some(P1))]
    ensures var s' := Next(s, ServerRefreshes(3, 201, "b", 0, true));
            && s'.queue == [4] && s'.refreshTask == Some(3) && Counts(s', 0, 0, 1) && s'.accesses == {100, 200, 201}
            && s'.calls == map[0 := Finished, 1 := Rejected, 2 := Finished,
                               3 := Granted(Pair(201, "b")), 4 := Loaded(200, Some(P1))]
            && s'.server.table.Keys == {"", "cc", "b"}
            && s'.server.table["cc"] == NewToken("u", "ff", REFRESH_TTL).(usedAt := Some(0))
  {
  }

  lemma FirstUnwindsLate(s: Client)
    requires s.queue == [4] && s.refreshTask == Some(3) && Counts(s, 0, 0, 1) && s.accesses == {100, 200}
    requires s.server.table == map["" := NewToken("u", "f", REFRESH_TTL), "cc" := NewToken("u", "ff", REFRESH_TTL)]
    requires s.calls == map[0 := Finished, 1 := Rejected, 2 := Finished, 3 := Posting(P1), 4 := Loaded(200, Some(P1))]
    ensures var s' := Replay(s, [ServerRefreshes(3, 201, "b", 0, true), Unwind(1), Resume(0)]);
            && Counts(s', 0, 0, 1) && s'.accesses == {100, 200, 201}
            && 4 in s'.calls && s'.calls[4] == Posting(P1)
            && s'.server.table.Keys == {"", "cc", "b"}
            && s'.server.table["cc"] == NewToken("u", "ff", REFRESH_TTL).(usedAt := Some(0))
  {
    ReplayThree(s, ServerRefreshes(3, 201, "b", 0, true), Unwind(1), Resume(0));
    ThirdGranted(s);
    var s1 := Next(s, ServerRefreshes(3, 201, "b", 0, true));
    var s2 := Next(s1, Unwind(1));
    assert s2 == s1.(calls := s1.calls[1 := Failed], refreshTask := None);
    Posts(s2, 4, P1);
  }

  lemma FourthReplays(s: Client)
    requires Counts(s, 0, 0, 1) && s.accesses == {100, 200, 201} && 4 in s.calls && s.calls[4] == Posting(P1)
    requires s.server.table.Keys == {"", "cc", "b"}
    requires s.server.table["cc"] == NewToken("u", "ff", REFRESH_TTL).(usedAt := Some(0))
    ensures Counts(Replay(s, [ServerRefreshes(4, 202, "ccc", 0, true), Unwind(4), ClearStored]), 1, 0, 1)
  {
    ReplayThree(s, ServerRefreshes(4, 202, "ccc", 0, true), Unwind(4), ClearStored);
    PostsUsed(s);
  }

  lemma PostsUsed(s: Client)
    requires Counts(s, 0, 0, 1) && s.accesses == {100, 200, 201} && 4 in s.calls && s.calls[4] == Posting(P1)
    requires s.server.table.Keys == {"", "cc", "b"}
    requires s.server.table["cc"] == NewToken("u", "ff", REFRESH_TTL).(usedAt := Some(0))
    ensures Counts(Next(s, ServerRefreshes(4, 202, "ccc", 0, true)), 1, 0, 1)
  {
  }

  /** With every committed answer delivered and every resumption in order, such a sign-out leads to reuse. */
  lemma SignOutInFlightCausesReuse()
    ensures Counts(Replay(Fresh(), SignOutInFlight()), 1, 0, 1)
  {
    var e1 := [Login(0, "u", "f", 100, "", 0), SaveLogin(0), Begin(1)];
    var e2 := [Answer(1, true), Load(1), Resume(0)];
    var e3 := [SignOut, ClearStored, Login(2, "u", "ff", 200, "cc", 0)];
    var e4 := [SaveLogin(2), Begin(3), Begin(4)];
    var e5 := [Answer(3, true), Answer(4, true), Load(3)];
    var e6 := [Resume(0), Load(4), RequestLost(1)];
    var e7 := [ServerRefreshes(3, 201, "b", 0, true), Unwind(1), Resume(0)];
    var e8 := [ServerRefreshes(4, 202, "ccc", 0, true), Unwind(4), ClearStored];
    ReplayConcat(Fresh(), e1 + e2 + e3 + e4 + e5 + e6 + e7, e8);
    ReplayConcat(Fresh(), e1 + e2 + e3 + e4 + e5 + e6, e7);
    ReplayConcat(Fresh(), e1 + e2 + e3 + e4 + e5, e6);
    ReplayConcat(Fresh(), e1 + e2 + e3 + e4, e5);
    ReplayConcat(Fresh(), e1 + e2 + e3, e4);
    ReplayConcat(Fresh(), e1 + e2, e3);
    ReplayConcat(Fresh(), e1, e2);
    SignsIn();
    var s1 := Replay(Fresh(), e1);
    ForgetsFirstTask(s1);
    var s3 := Replay(Replay(s1, e2), e3);
    SignsInAgain(s3);
    BothRejectedAgain(Replay(s3, e4));
    var s5 := Replay(Replay(s3, e4), e5);
    ThirdPosts(s5);
    FirstUnwindsLate(Replay(s5, e6));
    FourthReplays(Replay(Replay(s5, e6), e7));
  }

  // ----- The actor in the source's own form -----

  class ApiClient {
    var store: Option<Pair>
    var calls: map<Call, Phase>
    var refreshTask: Option<Call>
    var queue: seq<Call>
    ghost var rest: Client  // the server and the history, which these sections do not touch

    ghost function View(): Client
      reads this
    {
      rest.(store := store, calls := calls, refreshTask := refreshTask, queue := queue)
    }

    constructor ()
      ensures View() == Fresh()
    {
      store, calls, refreshTask, queue, rest := None, map[], None, [], Fresh();
    }

    /** `try await sessionStore.load()`: the store answers now, the actor resumes later. */
    method LoadSession(c: Call)
      requires c in calls && calls[c].Unauthorized?
      modifies this
      ensures View() == Next(old(View()), Load(c))
    {
      calls := calls[c := Loaded(calls[c].access, store)];
      queue := queue + [c];
    }

    /** The actor runs the call at the head of its queue up to the next await. */
    method ResumeFirst()
      requires queue != [] && queue[0] in calls && Queued(calls[queue[0]])
      modifies this
      ensures View() == Next(old(View()), Resume(0))
    {
      var c := queue[0];
      assert queue[..0] + queue[1..] == queue[1..];
      rest := rest.(overtaken := Next(View(), Resume(0)).overtaken);
      match calls[c] {
        case Saved =>
          refreshTask := None;
          calls := calls[c := Retrying];
        case Loaded(failed, session) =>
          if session == None {
            calls := calls[c := Failed];
          } else if session.value.access != failed {
            calls := calls[c := Retrying];
          } else if refreshTask.Some? {
            calls := calls[c := Awaiting(refreshTask.value)];
          } else {
            refreshTask := Some(c);
            calls := calls[c := Posting(session.value)];
          }
      }
      queue := queue[1..];
    }

    method SaveReplacement(c: Call)
      requires c in calls && calls[c].Granted?
      modifies this
      ensures View() == Next(old(View()), Save(c))
    {
      store := Some(calls[c].replacement);
      calls := calls[c := Saved];
      queue := queue + [c];
    }

    method ForgetTask(c: Call)
      requires c in calls && calls[c].Rejected?
      modifies this
      ensures View() == Next(old(View()), Unwind(c))
    {
      refreshTask := None;
      calls := calls[c := Failed];
    }

    method ClearSession(c: Call)
      requires c in calls && calls[c].Failed?
      modifies this
      ensures View() == Next(old(View()), Clear(c))
    {
      store := None;
      calls := calls[c := Finished];
    }
  }
}
