/** What the Android client is for: concurrent rejections refresh the session once and nobody is signed out. */
module AndroidSessions {
  import opened Options
  import RefreshFamilies
  import opened TokenPairs
  import opened SessionFamilies
  import opened AndroidSingleFlight

  /** Nobody signs out, no request is lost on its way, and refreshes arrive before their token expires. */
  predicate Calm(s: Client, e: Event) {
    && !e.SignOut? && !e.RequestLost?
    && (e.ServerRefreshes? && At(s, e.c) && s.calls[e.c].Posting? && s.calls[e.c].current.refresh in s.server.table ==>
          e.now < s.server.table[s.calls[e.c].current.refresh].expiresAt)
  }

  predicate CalmRun(s: Client, events: seq<Event>)
    decreases |events|
  {
    events != [] ==> Calm(s, events[0]) && CalmRun(Next(s, events[0]), events[1..])
  }

  /** The call is between its first attempt and its second. */
  predicate UnderWay(p: Phase) {
    p.Sent? || p.Unauthorized? || p.Holding? || p.Posting? || p.Granted? || p.Reloading?
  }

  ghost predicate Undisturbed(s: Client) {
    && Safe(s.server, s.mine)
    && forall c :: c in s.calls ==> Fine(s.calls[c], s.store)
  }

  predicate Fine(p: Phase, store: Option<Pair>) {
    !p.Failed? && (UnderWay(p) ==> store.Some?)
  }

  lemma LocalFine(s: Client, e: Event)
    requires Undisturbed(s) && Local(e) && Calm(s, e)
    ensures Undisturbed(Next(s, e)) && (s.store.Some? ==> Next(s, e).store.Some?)
  {
    var s' := Next(s, e);
    LocalHistory(s, e);
    assert e.Clear? && At(s, e.c) ==> Fine(s.calls[e.c], s.store);
    assert s.store.Some? ==> s'.store.Some?;
    forall c | c in s'.calls ensures Fine(s'.calls[c], s'.store) {
      assert c in s.calls ==> Fine(s.calls[c], s.store);
    }
  }

  lemma RefreshFine(s: Client, e: Event)
    requires Inv(s) && Orderly(s) && Undisturbed(s) && e.ServerRefreshes? && Calm(s, e) && Orderly(Next(s, e))
    ensures Undisturbed(Next(s, e)) && Next(s, e).store == s.store
  {
    var s' := Next(s, e);
    if s' != s {
      var current := s.calls[e.c].current;
      assert Carried(s.calls[e.c]) == Some(current) && Good(s, current);
      SafeRotation(s.server, s.mine, current.refresh, e.refresh, e.now);
      assert s'.calls[e.c].Granted?;
      forall c | c in s'.calls ensures Fine(s'.calls[c], s'.store) {
        assert c in s.calls && Fine(s.calls[c], s.store);
      }
    }
  }

  lemma OutsideFine(s: Client, e: Event)
    requires Undisturbed(s) && (e.Login? || e.Others?)
    ensures Undisturbed(Next(s, e)) && Next(s, e).store == s.store
  {
    var s' := Next(s, e);
    if s' == s {
    } else if e.Login? {
      SafeFromLogin(s.server, s.mine, e.user, e.family, e.refresh, e.now);
      forall c | c in s'.calls ensures Fine(s'.calls[c], s'.store) {
        assert c in s.calls ==> Fine(s.calls[c], s.store);
      }
    } else {
      SafeFromOthers(s.server, s.mine, e.action);
    }
  }

  lemma FineNext(s: Client, e: Event)
    requires Inv(s) && Orderly(s) && Undisturbed(s) && Calm(s, e) && Orderly(Next(s, e))
    ensures Undisturbed(Next(s, e)) && (s.store.Some? ==> Next(s, e).store.Some?)
  {
    if Local(e) {
      LocalFine(s, e);
    } else if e.ServerRefreshes? {
      RefreshFine(s, e);
    } else {
      OutsideFine(s, e);
    }
  }

  lemma {:induction false} OrderlyBefore(s: Client, events: seq<Event>)
    requires Orderly(Replay(s, events))
    ensures Orderly(s)
    decreases |events|
  {
    if events != [] {
      OrderlyBefore(Next(s, events[0]), events[1..]);
      OrderlyStep(s, events[0]);
    }
  }

  lemma OrderlyStep(s: Client, e: Event)
    requires Orderly(Next(s, e))
    ensures Orderly(s)
  {
  }

  lemma {:induction false} FineReplay(s: Client, events: seq<Event>)
    requires Inv(s) && Undisturbed(s) && CalmRun(s, events) && Orderly(Replay(s, events))
    ensures Inv(Replay(s, events)) && Undisturbed(Replay(s, events))
    ensures s.store.Some? ==> Replay(s, events).store.Some?
    decreases |events|
  {
    if events != [] {
      OrderlyBefore(Next(s, events[0]), events[1..]);
      OrderlyStep(s, events[0]);
      InvNext(s, events[0]);
      FineNext(s, events[0]);
      FineReplay(Next(s, events[0]), events[1..]);
    }
  }

  /**
   In every run in which committed refreshes are answered, no two instances are inside their mutexes at once, nobody
   signs out, no request is lost and refreshes arrive before their token expires: no call ever fails for want of a
   session, and once there is a session there is one ever after. Many calls may be rejected at the same time.
   */
  lemma NobodyIsSignedOut(before: seq<Event>, s: Client, more: seq<Event>, s': Client)
    requires s == Replay(Fresh(), before) && s' == Replay(s, more)
    requires CalmRun(Fresh(), before) && CalmRun(s, more) && Orderly(s')
    ensures forall c :: c in s'.calls ==> !s'.calls[c].Failed?
    ensures s.store.Some? ==> s'.store.Some?
  {
    OrderlyBefore(s, more);
    FineReplay(Fresh(), before);
    FineReplay(s, more);
    forall c | c in s'.calls ensures !s'.calls[c].Failed? {
      assert Fine(s'.calls[c], s'.store);
    }
  }

  /**
   A call that enters the mutex after another has refreshed sends nothing, touches nothing, and goes on to its second
   attempt, with any session other than the one it failed with.
   */
  lemma LateCallRetries(s: Client, c: Call, access: nat, session: Pair)
    requires At(s, c) && s.calls[c] == Unauthorized(access) && MutexFree(s.inside, c.instance)
    requires s.store == Some(session) && session.access != access && c !in s.inside
    ensures var s' := Next(Next(s, Enter(c)), LoadInside(c));
            s'.calls[c] == Reloading && s'.store == s.store && s'.server == s.server && s'.inside == s.inside
  {
    var s1 := Next(s, Enter(c));
    assert s1.calls[c] == Holding(access) && s1.inside == s.inside + {c};
    assert s.inside + {c} - {c} == s.inside;
  }

  /** And one that enters with the session it failed with posts that session's refresh token. */
  lemma FirstCallPosts(s: Client, c: Call, session: Pair)
    requires At(s, c) && s.calls[c] == Unauthorized(session.access) && MutexFree(s.inside, c.instance)
    requires s.store == Some(session)
    ensures var s' := Next(Next(s, Enter(c)), LoadInside(c)); s'.calls[c] == Posting(session) && s'.store == s.store
  {
    assert Next(s, Enter(c)).calls[c] == Holding(session.access);
  }

  /** The server's answer to the refresh does not give the call a new session. */
  predicate Fruitless(s: Client, e: Event, current: Pair) {
    && e.ServerRefreshes? && e.refresh !in s.server.table && e.access !in s.accesses
    && (!e.delivered
        || !RefreshFamilies.Rotate(s.server.table, current.refresh, e.refresh, e.now + 2_592_000, e.now).1.Rotated?)
  }

  /**
   In every state a call fails exactly when there is no session to refresh, its request is lost, or the answer is none
   that it can use; and the session ends exactly when such a call clears it or somebody signs out.
   */
  lemma FailsIff(s: Client, e: Event, c: Call)
    requires At(s, c) && !s.calls[c].Failed?
    ensures Next(s, e).calls[c].Failed?
            <==> || (e == LoadInside(c) && s.calls[c].Holding? && s.store.None?)
                 || (e == RequestLost(c) && s.calls[c].Posting?)
                 || (e.ServerRefreshes? && e.c == c && s.calls[c].Posting? && Fruitless(s, e, s.calls[c].current))
    ensures s.store.Some? ==>
              (Next(s, e).store.None? <==> e.SignOut? || (e.Clear? && At(s, e.c) && s.calls[e.c].Failed?))
  {
  }
}
