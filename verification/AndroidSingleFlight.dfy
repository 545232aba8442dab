/**
 The Android client's mutex-guarded refresh composed with the server's token families: any number of calls, logins
 and sign-outs over one stored session, interleaved with other clients of the same server. The activity and
 the messaging service each build their own `ApiClient` over that session, so there is one mutex per instance.

 History fields: `mine` (refresh tokens ever issued to this client), `accesses` (access tokens
 ever issued), `spent` (access tokens on whose behalf the server committed a rotation), `reuses`
 (reuse reports to this client), `lost` (committed rotations whose answer never arrived) and `crossed` (calls
 that took their instance's mutex while a call of another instance was inside its own).
 */
module AndroidSingleFlight {
  import opened Options
  import opened RefreshFamilies
  import opened TokenPairs

  /** The `id`-th call of an `ApiClient` instance. */
  datatype Call = Call(instance: nat, id: nat)

  datatype Phase =
    | Sent(access: nat)          // first attempt in flight
    | Unauthorized(access: nat)  // answered 401; waiting for the mutex
    | Holding(access: nat)       // inside the mutex, about to load the session
    | Posting(current: Pair)     // inside the mutex, refresh request in flight
    | Granted(replacement: Pair) // inside the mutex, about to save
    | Failed                     // the refresh threw; about to clear the session
    | Reloading                  // about to load the session and retry once
    | LoggedIn(pair: Pair)       // a login or registration answered; about to save
    | Finished

  datatype Client = Client(
    server: State,
    store: Option<Pair>,
    calls: map<Call, Phase>,
    inside: set<Call>,
    mine: set<Hash>,
    accesses: set<nat>,
    spent: seq<nat>,
    reuses: nat,
    lost: nat,
    crossed: nat)

  datatype Event =
    | Begin(c: Call)
    | Answer(c: Call, unauthorized: bool)
    | Enter(c: Call)
    | LoadInside(c: Call)
    | ServerRefreshes(c: Call, access: nat, refresh: Hash, now: int, delivered: bool)
    | RequestLost(c: Call)
    | Save(c: Call)
    | Clear(c: Call)
    | Reload(c: Call)
    | Login(c: Call, user: string, family: Family, access: nat, refresh: Hash, now: int)
    | SaveLogin(c: Call)
    | SignOut
    | Others(action: Action)

  predicate InMutex(p: Phase) {
    p.Holding? || p.Posting? || p.Granted?
  }

  function Fresh(): Client {
    Client(Init(), None, map[], {}, {}, {}, [], 0, 0, 0)
  }

  function Move(s: Client, c: Call, p: Phase): Client {
    s.(calls := s.calls[c := p])
  }

  function Leave(s: Client, c: Call, p: Phase): Client {
    Move(s, c, p).(inside := s.inside - {c})
  }

  predicate At(s: Client, c: Call) {
    c in s.calls
  }

  predicate MutexFree(inside: set<Call>, instance: nat) {
    forall c :: c in inside ==> c.instance != instance
  }

  function EnterStep(s: Client, c: Call): Client
    requires At(s, c) && s.calls[c].Unauthorized?
  {
    Move(s, c, Holding(s.calls[c].access)).(
      inside := s.inside + {c},
      crossed := if s.inside == {} then s.crossed else s.crossed + 1)
  }

  function LoadInsideStep(s: Client, c: Call): Client
    requires At(s, c) && s.calls[c].Holding?
  {
    if s.store.None? then Leave(s, c, Failed)
    else if s.store.value.access != s.calls[c].access then Leave(s, c, Reloading)
    else Move(s, c, Posting(s.store.value))
  }

  /** The server commits or rejects; a committed rotation may still fail to reach the client. */
  function ServerStep(s: Client, c: Call, replacement: Pair, now: int, delivered: bool): Client
    requires At(s, c) && s.calls[c].Posting?
    requires replacement.refresh !in s.server.table && replacement.access !in s.accesses
  {
    var current := s.calls[c].current;
    var outcome := Rotate(s.server.table, current.refresh, replacement.refresh, now + REFRESH_TTL, now).1;
    var s' := s.(server := Step(s.server, Refresh(current.refresh, replacement.refresh, now)));
    match outcome
    case InvalidRefresh => Leave(s', c, Failed)
    case RefreshReuse => Leave(s', c, Failed).(reuses := s.reuses + 1)
    case Rotated(_) =>
      var s'' := s'.(mine := s.mine + {replacement.refresh}, accesses := s.accesses + {replacement.access},
                     spent := s.spent + [current.access]);
      if delivered then Move(s'', c, Granted(replacement))
      else Leave(s'', c, Failed).(lost := s.lost + 1)
  }

  function LoginStep(s: Client, c: Call, user: string, family: Family, pair: Pair, now: int): Client
    requires c !in s.calls && pair.refresh !in s.server.table && family !in s.server.tips
    requires pair.access !in s.accesses
  {
    Move(s, c, LoggedIn(pair)).(
      server := Step(s.server, Issue(user, family, pair.refresh, now)),
      mine := s.mine + {pair.refresh},
      accesses := s.accesses + {pair.access})
  }

  function Next(s: Client, e: Event): Client {
    match e
    case Begin(c) =>
      if c in s.calls then s
      else if s.store.None? then Move(s, c, Finished)
      else Move(s, c, Sent(s.store.value.access))
    case Answer(c, unauthorized) =>
      if !(At(s, c) && s.calls[c].Sent?) then s
      else if unauthorized then Move(s, c, Unauthorized(s.calls[c].access))
      else Move(s, c, Finished)
    case Enter(c) =>
      if At(s, c) && s.calls[c].Unauthorized? && MutexFree(s.inside, c.instance) then EnterStep(s, c) else s
    case LoadInside(c) => if At(s, c) && s.calls[c].Holding? then LoadInsideStep(s, c) else s
    case ServerRefreshes(c, access, refresh, now, delivered) =>
      if At(s, c) && s.calls[c].Posting? && refresh !in s.server.table && access !in s.accesses
      then ServerStep(s, c, Pair(access, refresh), now, delivered) else s
    case RequestLost(c) => if At(s, c) && s.calls[c].Posting? then Leave(s, c, Failed) else s
    case Save(c) =>
      if At(s, c) && s.calls[c].Granted?
      then Leave(s, c, Reloading).(store := Some(s.calls[c].replacement)) else s
    case Clear(c) => if At(s, c) && s.calls[c].Failed? then Move(s, c, Finished).(store := None) else s
    case Reload(c) => if At(s, c) && s.calls[c].Reloading? then Move(s, c, Finished) else s
    case Login(c, user, family, access, refresh, now) =>
      if c in s.calls || refresh in s.server.table || family in s.server.tips || access in s.accesses then s
      else LoginStep(s, c, user, family, Pair(access, refresh), now)
    case SaveLogin(c) =>
      if At(s, c) && s.calls[c].LoggedIn? then Move(s, c, Finished).(store := Some(s.calls[c].pair)) else s
    case SignOut => s.(store := None)
    case Others(action) =>
      if action.Refresh? && action.hash in s.mine then s else s.(server := Step(s.server, action))
  }

  function Replay(s: Client, events: seq<Event>): Client
    decreases |events|
  {
    if events == [] then s else Replay(Next(s, events[0]), events[1..])
  }

  // ----- The composed invariant -----

  /** Neither half of the pair has been spent yet. */
  predicate Good(s: Client, p: Pair) {
    p.refresh in s.mine && p.access in s.accesses && Unused(s.server, p.refresh) && p.access !in s.spent
  }

  predicate HolderGranted(s: Client) {
    exists c :: c in s.inside && c in s.calls && s.calls[c].Granted?
  }

  /** One call at a time is inside a mutex, whichever instance's. */
  ghost predicate MutexHeldByOne(s: Client) {
    && (forall c :: c in s.inside ==> c in s.calls && InMutex(s.calls[c]))
    && (forall c :: c in s.calls && InMutex(s.calls[c]) ==> s.inside == {c})
  }

  predicate Orderly(s: Client) {
    s.lost == 0 && s.crossed == 0
  }

  /** The pair that `p` is about to put to use, if any. */
  function Carried(p: Phase): Option<Pair> {
    match p
    case Posting(current) => Some(current)
    case Granted(replacement) => Some(replacement)
    case LoggedIn(pair) => Some(pair)
    case _ => None
  }

  ghost predicate CarriedGood(s: Client) {
    forall c :: c in s.calls && Carried(s.calls[c]).Some? ==> Good(s, Carried(s.calls[c]).value)
  }

  /** The stored pair is unspent, except between a committed rotation and its save. */
  ghost predicate StoreGood(s: Client) {
    s.store.Some? ==>
      && s.store.value.refresh in s.mine && s.store.value.access in s.accesses
      && s.store.value.refresh in s.server.table
      && (HolderGranted(s) || Good(s, s.store.value))
  }

  /** A pair waiting to be saved by a login is not in use anywhere else. */
  ghost predicate LoginsApart(s: Client) {
    forall c :: c in s.calls && s.calls[c].LoggedIn? ==>
                  && (s.store.Some? ==> Apart(s.store.value, s.calls[c].pair))
                  && forall d :: d in s.calls && d != c && Carried(s.calls[d]).Some? ==>
                                   Apart(Carried(s.calls[d]).value, s.calls[c].pair)
  }

  ghost predicate Known(s: Client) {
    && (forall h :: h in s.mine ==> h in s.server.table)
    && (forall i :: 0 <= i < |s.spent| ==> s.spent[i] in s.accesses)
    && (forall i, j :: 0 <= i < j < |s.spent| ==> s.spent[i] != s.spent[j])
  }

  ghost predicate Inv(s: Client) {
    Orderly(s) ==>
      && MutexHeldByOne(s) && CarriedGood(s) && StoreGood(s) && LoginsApart(s) && Known(s)
      && s.reuses == 0
  }

  /** Every token known before a server step stays unused as it was, except the one presented. */
  lemma ServerActionKeeps(s: Client, s': Client, a: Action)
    requires Known(s) && s'.server == Step(s.server, a)
    ensures forall h :: h in s.mine ==> h in s'.server.table
    ensures forall h :: h in s.mine && Unused(s.server, h) && !(a.Refresh? && a.hash == h) ==> Unused(s'.server, h)
  {
    forall h | h in s.mine
      ensures h in s'.server.table
      ensures Unused(s.server, h) && !(a.Refresh? && a.hash == h) ==> Unused(s'.server, h)
    {
      TableGrows(s.server, a, h);
      if Unused(s.server, h) && !(a.Refresh? && a.hash == h) {
        UnusedStep(s.server, a, h);
      }
    }
  }

  lemma OthersKeep(s: Client, action: Action)
    requires Inv(s) && Orderly(s)
    ensures Inv(Next(s, Others(action)))
  {
    if !(action.Refresh? && action.hash in s.mine) {
      ServerActionKeeps(s, Next(s, Others(action)), action);
    }
  }

  lemma LoginKeeps(s: Client, c: Call, user: string, family: Family, pair: Pair, now: int)
    requires Inv(s) && Orderly(s)
    requires c !in s.calls && pair.refresh !in s.server.table && family !in s.server.tips
    requires pair.access !in s.accesses
    ensures Inv(LoginStep(s, c, user, family, pair, now))
  {
    var s' := LoginStep(s, c, user, family, pair, now);
    ServerActionKeeps(s, s', Issue(user, family, pair.refresh, now));
    assert Good(s', pair);
    LoginStaysApart(s, c, user, family, pair, now);
  }

  lemma LoginStaysApart(s: Client, c: Call, user: string, family: Family, pair: Pair, now: int)
    requires CarriedGood(s) && StoreGood(s) && LoginsApart(s) && Known(s)
    requires c !in s.calls && pair.refresh !in s.server.table && family !in s.server.tips
    requires pair.access !in s.accesses
    ensures LoginsApart(LoginStep(s, c, user, family, pair, now))
  {
    forall p: Pair | p.refresh in s.mine && p.access in s.accesses ensures Apart(p, pair) {
    }
  }

  lemma ServerKeeps(s: Client, c: Call, replacement: Pair, now: int, delivered: bool)
    requires Inv(s) && Orderly(s)
    requires At(s, c) && s.calls[c].Posting?
    requires replacement.refresh !in s.server.table && replacement.access !in s.accesses
    ensures Inv(ServerStep(s, c, replacement, now, delivered))
  {
    var current := s.calls[c].current;
    assert Carried(s.calls[c]) == Some(current) && Good(s, current);
    UnusedNotReuse(s.server, current.refresh, replacement.refresh, now + REFRESH_TTL, now);
    if !Rotate(s.server.table, current.refresh, replacement.refresh, now + REFRESH_TTL, now).1.Rotated? {
      RefusedKeeps(s, c, replacement, now, delivered);
    } else if delivered {
      GrantKeeps(s, c, replacement, now);
    }
  }

  /** An expired or revoked token is refused and nothing is spent. */
  lemma RefusedKeeps(s: Client, c: Call, replacement: Pair, now: int, delivered: bool)
    requires Inv(s) && Orderly(s) && At(s, c) && s.calls[c].Posting?
    requires replacement.refresh !in s.server.table && replacement.access !in s.accesses
    requires Rotate(s.server.table, s.calls[c].current.refresh, replacement.refresh, now + REFRESH_TTL,
        now).1.InvalidRefresh?
    ensures Inv(ServerStep(s, c, replacement, now, delivered))
  {
    var s' := ServerStep(s, c, replacement, now, delivered);
    assert s'.server.table == s.server.table && s' == Leave(s, c, Failed).(server := s'.server);
  }

  lemma GrantKeeps(s: Client, c: Call, replacement: Pair, now: int)
    requires Inv(s) && Orderly(s) && At(s, c) && s.calls[c].Posting?
    requires replacement.refresh !in s.server.table && replacement.access !in s.accesses
    requires Rotate(s.server.table, s.calls[c].current.refresh, replacement.refresh, now + REFRESH_TTL, now).1.Rotated?
    ensures Inv(ServerStep(s, c, replacement, now, true))
  {
    var s' := ServerStep(s, c, replacement, now, true);
    ServerActionKeeps(s, s', Refresh(s.calls[c].current.refresh, replacement.refresh, now));
    GrantStaysApart(s, c, replacement, now);
    assert Good(s', replacement) && s'.inside == {c};
    forall d | d in s'.calls && d != c && Carried(s'.calls[d]).Some?
      ensures d in s.calls && s'.calls[d] == s.calls[d] && s.calls[d].LoggedIn?
    {
    }
  }

  lemma GrantStaysApart(s: Client, c: Call, replacement: Pair, now: int)
    requires CarriedGood(s) && LoginsApart(s) && Known(s) && At(s, c) && s.calls[c].Posting?
    requires replacement.refresh !in s.server.table && replacement.access !in s.accesses
    requires Rotate(s.server.table, s.calls[c].current.refresh, replacement.refresh, now + REFRESH_TTL, now).1.Rotated?
    ensures LoginsApart(ServerStep(s, c, replacement, now, true))
  {
    forall p: Pair | p.refresh in s.mine && p.access in s.accesses ensures Apart(p, replacement) {
    }
  }

  predicate Local(e: Event) {
    !e.ServerRefreshes? && !e.Login? && !e.Others?
  }

  lemma LocalMutex(s: Client, e: Event)
    requires MutexHeldByOne(s) && Local(e) && Next(s, e).crossed == s.crossed
    ensures MutexHeldByOne(Next(s, e))
  {
    var s' := Next(s, e);
    if s' != s && e.Enter? {
      assert s.inside == {} && s'.inside == {e.c};
    }
  }

  /** A client-side step spends nothing, and carries no pair it did not find in the store. */
  lemma LocalCarried(s: Client, e: Event)
    requires MutexHeldByOne(s) && CarriedGood(s) && StoreGood(s) && Local(e)
    ensures CarriedGood(Next(s, e))
  {
    var s' := Next(s, e);
    forall c | c in s'.calls && Carried(s'.calls[c]).Some? ensures Good(s', Carried(s'.calls[c]).value) {
      if !(c in s.calls && s.calls[c] == s'.calls[c]) {
        assert e == LoadInside(c) && !HolderGranted(s);
      }
    }
  }

  lemma LocalStore(s: Client, e: Event)
    requires Inv(s) && Orderly(s) && Local(e)
    ensures StoreGood(Next(s, e))
  {
    var s' := Next(s, e);
    if s'.store.Some? {
      if e.Save? && s' != s {
        assert Good(s, s'.store.value);
      } else if e.SaveLogin? && s' != s {
        assert Good(s, s'.store.value);
      } else {
        assert s'.store == s.store && HolderGranted(s') == HolderGranted(s);
      }
    }
  }

  ghost predicate CarriedBefore(s: Client, d: Call, p: Phase) {
    && d in s.calls && (Carried(p) == Carried(s.calls[d]) || Carried(p) == s.store)
    && (p.LoggedIn? ==> s.calls[d] == p)
  }

  /** No new login; every carried pair and the stored pair come from where they were before. */
  ghost predicate FromBefore(s: Client, s': Client, from: Option<Call>) {
    && (forall d :: d in s'.calls && Carried(s'.calls[d]).Some? ==> CarriedBefore(s, d, s'.calls[d]))
    && (|| s'.store.None? || s'.store == s.store
        || (&& from.Some? && from.value in s.calls && Carried(s.calls[from.value]) == s'.store
            && from.value in s'.calls && !s'.calls[from.value].LoggedIn?))
  }

  lemma LoginsFramed(s: Client, s': Client, from: Option<Call>)
    requires LoginsApart(s) && FromBefore(s, s', from)
    ensures LoginsApart(s')
  {
    forall c | c in s'.calls && s'.calls[c].LoggedIn?
      ensures s'.store.Some? ==> Apart(s'.store.value, s'.calls[c].pair)
      ensures forall d :: d in s'.calls && d != c && Carried(s'.calls[d]).Some? ==>
                            Apart(Carried(s'.calls[d]).value, s'.calls[c].pair)
    {
      assert CarriedBefore(s, c, s'.calls[c]) && c in s.calls && s.calls[c] == s'.calls[c];
      forall d | d in s'.calls && d != c && Carried(s'.calls[d]).Some?
        ensures Apart(Carried(s'.calls[d]).value, s'.calls[c].pair)
      {
        assert CarriedBefore(s, d, s'.calls[d]);
      }
    }
  }

  lemma LocalLogins(s: Client, e: Event)
    requires LoginsApart(s) && Local(e)
    ensures LoginsApart(Next(s, e))
  {
    var s' := Next(s, e);
    var from := if e.Save? || e.SaveLogin? then Some(e.c) else None;
    assert FromBefore(s, s', from);
    LoginsFramed(s, s', from);
  }

  lemma ClientKeeps(s: Client, e: Event)
    requires Inv(s) && Orderly(s) && Local(e)
    ensures Inv(Next(s, e))
  {
    if Orderly(Next(s, e)) {
      LocalMutex(s, e);
      LocalCarried(s, e);
      LocalStore(s, e);
      LocalLogins(s, e);
      LocalHistory(s, e);
    }
  }

  lemma LocalHistory(s: Client, e: Event)
    requires Local(e)
    ensures var s' := Next(s, e);
            && s'.server == s.server && s'.mine == s.mine && s'.accesses == s.accesses
            && s'.spent == s.spent && s'.reuses == s.reuses && s'.lost == s.lost
  {
  }

  lemma InvNext(s: Client, e: Event)
    requires Inv(s)
    ensures Inv(Next(s, e))
  {
    if Orderly(s) {
      match e
      case Others(action) => OthersKeep(s, action);
      case Login(c, user, family, access, refresh, now) =>
        if !(c in s.calls || refresh in s.server.table || family in s.server.tips || access in s.accesses) {
          LoginKeeps(s, c, user, family, Pair(access, refresh), now);
        }
      case ServerRefreshes(c, access, refresh, now, delivered) =>
        if At(s, c) && s.calls[c].Posting? && refresh !in s.server.table && access !in s.accesses {
          ServerKeeps(s, c, Pair(access, refresh), now, delivered);
        }
      case _ => ClientKeeps(s, e);
    }
  }

  lemma {:induction false} InvReplay(s: Client, events: seq<Event>)
    requires Inv(s)
    ensures Inv(Replay(s, events))
    decreases |events|
  {
    if events != [] {
      InvNext(s, events[0]);
      InvReplay(Next(s, events[0]), events[1..]);
    }
  }

  /**
   Single flight over rotation: in every run where each committed refresh is answered and no two instances are
   inside their mutexes at once, the server never reports reuse to this client, and no access token is
   ever refreshed twice.
   */
  lemma NeverReplaysConsumedToken(events: seq<Event>)
    requires Orderly(Replay(Fresh(), events))
    ensures var s := Replay(Fresh(), events);
            && s.reuses == 0
            && forall i, j :: 0 <= i < j < |s.spent| ==> s.spent[i] != s.spent[j]
  {
    InvReplay(Fresh(), events);
  }

  /** And the token it posts next is always the newest of its family. */
  lemma PostsUnusedToken(events: seq<Event>, c: Call)
    requires var s := Replay(Fresh(), events); Orderly(s) && c in s.calls && s.calls[c].Posting?
    ensures var s := Replay(Fresh(), events); Unused(s.server, s.calls[c].current.refresh)
  {
    InvReplay(Fresh(), events);
  }

  ghost predicate OnlyInstance(s: Client, m: nat) {
    s.crossed == 0 && forall c :: c in s.inside ==> c.instance == m
  }

  lemma OneInstanceNext(s: Client, e: Event, m: nat)
    requires OnlyInstance(s, m) && (e.Enter? ==> e.c.instance == m)
    ensures OnlyInstance(Next(s, e), m)
  {
    if e.Enter? && At(s, e.c) && s.calls[e.c].Unauthorized? && MutexFree(s.inside, e.c.instance) {
      assert forall c :: c in s.inside ==> c.instance == m && c.instance != m;
      assert s.inside == {};
    }
  }

  lemma {:induction false} OneInstanceReplay(s: Client, events: seq<Event>, m: nat)
    requires OnlyInstance(s, m) && forall i :: 0 <= i < |events| && events[i].Enter? ==> events[i].c.instance == m
    ensures Replay(s, events).crossed == 0
    decreases |events|
  {
    if events != [] {
      OneInstanceNext(s, events[0], m);
      OneInstanceReplay(Next(s, events[0]), events[1..], m);
    }
  }

  /** With one `ApiClient` per stored session nothing crosses. */
  lemma OneInstanceSuffices(events: seq<Event>, m: nat)
    requires forall i :: 0 <= i < |events| && events[i].Enter? ==> events[i].c.instance == m
    requires Replay(Fresh(), events).lost == 0
    ensures Orderly(Replay(Fresh(), events)) && Replay(Fresh(), events).reuses == 0
  {
    OneInstanceReplay(Fresh(), events, m);
    InvReplay(Fresh(), events);
  }

  // ----- Both conditions are needed: a lost answer or a second instance is enough -----

  lemma ReplayThree(s: Client, a: Event, b: Event, c: Event)
    ensures Replay(s, [a, b, c]) == Next(Next(Next(s, a), b), c)
  {
    assert [a, b, c][1..] == [b, c] && [b, c][1..] == [c];
    assert Replay(s, [a, b, c]) == Replay(Next(s, a), [b, c]);
    assert Replay(Next(s, a), [b, c]) == Replay(Next(Next(s, a), b), [c]);
    assert Replay(Next(Next(s, a), b), [c]) == Replay(Next(Next(Next(s, a), b), c), []);
  }

  lemma {:induction false} ReplayConcat(s: Client, events: seq<Event>, more: seq<Event>)
    ensures Replay(s, events + more) == Replay(Replay(s, events), more)
    decreases |events|
  {
    if events == [] {
      assert events + more == more;
    } else {
      assert (events + more)[1..] == events[1..] + more;
      ReplayConcat(Next(s, events[0]), events[1..], more);
    }
  }

  const L: Call := Call(0, 0)
  const C: Call := Call(0, 1)
  const P0: Pair := Pair(100, "")

  /** Call `C` refreshes, and before it has settled `d`, rejected with the same access token, refreshes too. */
  function Overlap(d: Call, delivered: bool): seq<Event> {
    [Login(L, "u", "f", 100, "", 0), SaveLogin(L), Begin(C)]
    + [Begin(d), Answer(C, true), Answer(d, true)]
    + [Enter(C), LoadInside(C), ServerRefreshes(C, 101, "b", 0, delivered)]
    + [Enter(d), LoadInside(d), ServerRefreshes(d, 102, "bb", 0, true)]
  }

  predicate Counts(s: Client, reuses: nat, lost: nat, crossed: nat) {
    s.reuses == reuses && s.lost == lost && s.crossed == crossed
  }

  lemma SignsIn()
    ensures var s := Replay(Fresh(), [Login(L, "u", "f", 100, "", 0), SaveLogin(L), Begin(C)]);
            && s.store == Some(P0) && s.calls == map[L := Finished, C := Sent(100)] && s.inside == {}
            && s.accesses == {100} && Counts(s, 0, 0, 0)
            && s.server.table == map["" := NewToken("u", "f", REFRESH_TTL)] && s.server.tips == map["f" := ""]
  {
    ReplayThree(Fresh(), Login(L, "u", "f", 100, "", 0), SaveLogin(L), Begin(C));
  }

  lemma BothRejected(s: Client, d: Call)
    requires s.store == Some(P0) && s.calls == map[L := Finished, C := Sent(100)] && d != L && d != C
    ensures Replay(s, [Begin(d), Answer(C, true), Answer(d, true)])
            == s.(calls := map[L := Finished, C := Unauthorized(100), d := Unauthorized(100)])
  {
    ReplayThree(s, Begin(d), Answer(C, true), Answer(d, true));
  }

  lemma FirstCommits(s: Client, d: Call, delivered: bool)
    requires s.store == Some(P0) && s.inside == {} && s.accesses == {100} && Counts(s, 0, 0, 0) && d != L && d != C
    requires s.calls == map[L := Finished, C := Unauthorized(100), d := Unauthorized(100)]
    requires s.server.table == map["" := NewToken("u", "f", REFRESH_TTL)] && s.server.tips == map["f" := ""]
    ensures var s' := Replay(s, [Enter(C), LoadInside(C), ServerRefreshes(C, 101, "b", 0, delivered)]);
            && s'.store == s.store && s'.inside == (if delivered then {C} else {}) && s'.accesses == {100, 101}
            && d in s'.calls && s'.calls[d] == Unauthorized(100)
            && s'.server.table.Keys == {"", "b"}
            && s'.server.table[""] == NewToken("u", "f", REFRESH_TTL).(usedAt := Some(0))
            && Counts(s', 0, if delivered then 0 else 1, 0)
  {
    ReplayThree(s, Enter(C), LoadInside(C), ServerRefreshes(C, 101, "b", 0, delivered));
    var s1 := Next(s, Enter(C));
    assert s1 == s.(calls := s.calls[C := Holding(100)], inside := {C});
    var s2 := Next(s1, LoadInside(C));
    assert s2 == s1.(calls := s1.calls[C := Posting(P0)]);
    FirstRotates(s2, d, delivered);
  }

  lemma FirstRotates(s: Client, d: Call, delivered: bool)
    requires s.inside == {C} && s.accesses == {100} && Counts(s, 0, 0, 0) && C in s.calls && s.calls[C] == Posting(P0)
    requires d != C && d in s.calls
    requires s.server.table == map["" := NewToken("u", "f", REFRESH_TTL)] && s.server.tips == map["f" := ""]
    ensures var s' := Next(s, ServerRefreshes(C, 101, "b", 0, delivered));
            && s'.store == s.store && s'.inside == (if delivered then {C} else {}) && s'.accesses == {100, 101}
            && d in s'.calls && s'.calls[d] == s.calls[d]
            && s'.server.table.Keys == {"", "b"}
            && s'.server.table[""] == NewToken("u", "f", REFRESH_TTL).(usedAt := Some(0))
            && Counts(s', 0, if delivered then 0 else 1, 0)
  {
  }

  lemma SecondReplays(s: Client, d: Call)
    requires s.store == Some(P0) && s.accesses == {100, 101} && MutexFree(s.inside, d.instance)
    requires d in s.calls && s.calls[d] == Unauthorized(100) && s.server.table.Keys == {"", "b"}
    requires s.server.table[""] == NewToken("u", "f", REFRESH_TTL).(usedAt := Some(0))
    ensures Counts(Replay(s, [Enter(d), LoadInside(d), ServerRefreshes(d, 102, "bb", 0, true)]),
                   s.reuses + 1, s.lost, if s.inside == {} then s.crossed else s.crossed + 1)
  {
    ReplayThree(s, Enter(d), LoadInside(d), ServerRefreshes(d, 102, "bb", 0, true));
    var s2 := Next(Next(s, Enter(d)), LoadInside(d));
    assert s2.calls[d] == Posting(P0) && s2.server == s.server;
  }

  lemma OverlapReplays(d: Call, delivered: bool)
    requires d == Call(if delivered then 1 else 0, 2)
    ensures Counts(Replay(Fresh(), Overlap(d, delivered)), 1, if delivered then 0 else 1, if delivered then 1 else 0)
  {
    var first := [Login(L, "u", "f", 100, "", 0), SaveLogin(L), Begin(C)];
    var second := [Begin(d), Answer(C, true), Answer(d, true)];
    var third := [Enter(C), LoadInside(C), ServerRefreshes(C, 101, "b", 0, delivered)];
    var fourth := [Enter(d), LoadInside(d), ServerRefreshes(d, 102, "bb", 0, true)];
    ReplayConcat(Fresh(), first + second + third, fourth);
    ReplayConcat(Fresh(), first + second, third);
    ReplayConcat(Fresh(), first, second);
    SignsIn();
    var s3 := Replay(Fresh(), first);
    BothRejected(s3, d);
    FirstCommits(Replay(s3, second), d, delivered);
    SecondReplays(Replay(Replay(s3, second), third), d);
  }

  /** With a single instance and a single unanswered rotation the mutex alone does not prevent a reuse report. */
  lemma LostAnswerCausesReuse()
    ensures Counts(Replay(Fresh(), Overlap(Call(0, 2), false)), 1, 1, 0)
  {
    OverlapReplays(Call(0, 2), false);
  }

  /** With every answer delivered, a second instance posts the token that the first has just consumed. */
  lemma SecondInstanceCausesReuse()
    ensures Counts(Replay(Fresh(), Overlap(Call(1, 2), true)), 1, 0, 1)
  {
    OverlapReplays(Call(1, 2), true);
  }

  // ----- The client in the source's own form -----

  /** One instance: its own mutex, over calls and a session that it shares with the others. */
  class ApiClient {
    const instance: nat
    var store: Option<Pair>
    var calls: map<Call, Phase>
    var holder: Option<Call>
    ghost var rest: Client  // the server, the history and the calls inside other instances' mutexes

    ghost function View(): Client
      reads this
    {
      rest.(store := store, calls := calls,
            inside := if holder.Some? then rest.inside + {holder.value} else rest.inside)
    }

    ghost predicate Valid()
      reads this
    {
      MutexFree(rest.inside, instance) && (holder.Some? ==> holder.value.instance == instance)
    }

    constructor (instance: nat)
      ensures Valid() && View() == Fresh() && this.instance == instance
    {
      this.instance := instance;
      store, calls, holder, rest := None, map[], None, Fresh();
    }

    method BeginRequest(c: Call)
      requires c !in calls
      modifies this
      ensures View() == Next(old(View()), Begin(c))
    {
      match store {
        case None => calls := calls[c := Finished];
        case Some(initial) => calls := calls[c := Sent(initial.access)];
      }
    }

    method LockMutex(c: Call)
      requires Valid() && c in calls && calls[c].Unauthorized? && c.instance == instance && holder.None?
      modifies this
      ensures Valid() && View() == Next(old(View()), Enter(c))
    {
      holder := Some(c);
      rest := rest.(crossed := if rest.inside == {} then rest.crossed else rest.crossed + 1);
      calls := calls[c := Holding(calls[c].access)];
    }

    /** Inside the lock: someone else may already have refreshed. */
    method CheckCurrent(c: Call)
      requires Valid() && c in calls && calls[c].Holding? && holder == Some(c)
      modifies this
      ensures Valid() && View() == Next(old(View()), LoadInside(c))
    {
      match store {
        case None =>
          calls := calls[c := Failed];
          holder := None;
        case Some(current) =>
          if current.access != calls[c].access {
            calls := calls[c := Reloading];
            holder := None;
          } else {
            calls := calls[c := Posting(current)];
          }
      }
    }

    method SaveReplacement(c: Call)
      requires Valid() && c in calls && calls[c].Granted? && holder == Some(c)
      modifies this
      ensures Valid() && View() == Next(old(View()), Save(c))
    {
      store := Some(calls[c].replacement);
      calls := calls[c := Reloading];
      holder := None;
    }

    method RefreshThrew(c: Call)
      requires Valid() && c in calls && calls[c].Posting? && holder == Some(c)
      modifies this
      ensures Valid() && View() == Next(old(View()), RequestLost(c))
    {
      calls := calls[c := Failed];
      holder := None;
    }

    method ClearSession(c: Call)
      requires c in calls && calls[c].Failed?
      modifies this
      ensures View() == Next(old(View()), Clear(c))
    {
      store := None;
      calls := calls[c := Finished];
    }
  }
}
