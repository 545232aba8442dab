/** What the iOS client is for: concurrent rejections refresh the session once and nobody is signed out. */
module IosSessions {
  import opened Options
  import RefreshFamilies
  import opened TokenPairs
  import opened SessionFamilies
  import opened IosSingleFlight

  /**
   Nobody signs out, no request is lost on its way, refreshes arrive before their token expires, and whoever joins a
   refresh or tries again succeeds.
   */
  predicate Calm(s: Client, e: Event) {
    && !e.SignOut? && !e.ClearStored? && !e.RequestLost? && (e.AwaitEnds? || e.Retry? ==> e.ok)
    && (e.ServerRefreshes? && At(s, e.c) && s.calls[e.c].Posting? && s.calls[e.c].current.refresh in s.server.table ==>
          e.now < s.server.table[s.calls[e.c].current.refresh].expiresAt)
  }

  predicate CalmRun(s: Client, events: seq<Event>)
    decreases |events|
  {
    events != [] ==> Calm(s, events[0]) && CalmRun(Next(s, events[0]), events[1..])
  }

  /** The call is between its first attempt and its second. */
  predicate UnderWay(p: Phase) {
    p.Sent? || p.Unauthorized? || p.Loaded? || p.Awaiting? || p.Posting? || p.Granted? || p.Saved? || p.Retrying?
  }

  ghost predicate Undisturbed(s: Client) {
    && Safe(s.server, s.mine)
    && forall c :: c in s.calls ==> Fine(s.calls[c], s.store)
  }

  predicate Fine(p: Phase, store: Option<Pair>) {
    !p.Failed? && !p.Rejected? && (UnderWay(p) ==> store.Some?) && (p.Loaded? ==> p.session.Some?)
  }

  lemma LocalFine(s: Client, e: Event)
    requires Undisturbed(s) && Local(e) && Calm(s, e)
    ensures Undisturbed(Next(s, e)) && (s.store.Some? ==> Next(s, e).store.Some?)
  {
    var s' := Next(s, e);
    LocalHistory(s, e);
    assert e.Clear? && At(s, e.c) ==> Fine(s.calls[e.c], s.store);
    assert s.store.Some? ==> s'.store.Some?;
    forall c | c in s'.calls ensures Fine(s'.calls[c], s'.store) {
      assert c in s.calls ==> Fine(s.calls[c], s.store);
    }
  }

  lemma RefreshFine(s: Client, e: Event)
    requires Inv(s) && Orderly(s) && Undisturbed(s) && e.ServerRefreshes? && Calm(s, e) && Orderly(Next(s, e))
    ensures Undisturbed(Next(s, e)) && Next(s, e).store == s.store
  {
    var s' := Next(s, e);
    if s' != s {
      var current := s.calls[e.c].current;
      assert Carried(s.calls[e.c]) == Some(current) && Good(s, current);
      SafeRotation(s.server, s.mine, current.refresh, e.refresh, e.now);
      assert s'.calls[e.c].Granted?;
      forall c | c in s'.calls ensures Fine(s'.calls[c], s'.store) {
        assert c in s.calls && Fine(s.calls[c], s.store);
      }
    }
  }

  lemma OutsideFine(s: Client, e: Event)
    requires Undisturbed(s) && (e.Login? || e.Others?)
    ensures Undisturbed(Next(s, e)) && Next(s, e).store == s.store
  {
    var s' := Next(s, e);
    if s' == s {
    } else if e.Login? {
      SafeFromLogin(s.server, s.mine, e.user, e.family, e.refresh, e.now);
      forall c | c in s'.calls ensures Fine(s'.calls[c], s'.store) {
        assert c in s.calls ==> Fine(s.calls[c], s.store);
      }
    } else {
      SafeFromOthers(s.server, s.mine, e.action);
    }
  }

  lemma FineNext(s: Client, e: Event)
    requires Inv(s) && Orderly(s) && Undisturbed(s) && Calm(s, e) && Orderly(Next(s, e))
    ensures Undisturbed(Next(s, e)) && (s.store.Some? ==> Next(s, e).store.Some?)
  {
    if Local(e) {
      LocalFine(s, e);
    } else if e.ServerRefreshes? {
      RefreshFine(s, e);
    } else {
      OutsideFine(s, e);
    }
  }

  lemma {:induction false} OrderlyBefore(s: Client, events: seq<Event>)
    requires Orderly(Replay(s, events))
    ensures Orderly(s)
    decreases |events|
  {
    if events != [] {
      OrderlyBefore(Next(s, events[0]), events[1..]);
      OrderlyStep(s, events[0]);
    }
  }

  lemma OrderlyStep(s: Client, e: Event)
    requires Orderly(Next(s, e))
    ensures Orderly(s)
  {
  }

  lemma {:induction false} FineReplay(s: Client, events: seq<Event>)
    requires Inv(s) && Undisturbed(s) && CalmRun(s, events) && Orderly(Replay(s, events))
    ensures Inv(Replay(s, events)) && Undisturbed(Replay(s, events))
    ensures s.store.Some? ==> Replay(s, events).store.Some?
    decreases |events|
  {
    if events != [] {
      OrderlyBefore(Next(s, events[0]), events[1..]);
      OrderlyStep(s, events[0]);
      InvNext(s, events[0]);
      FineNext(s, events[0]);
      FineReplay(Next(s, events[0]), events[1..]);
    }
  }

  /**
   In every run in which committed refreshes are answered, no owner overtakes, nobody signs out, no request is lost,
   refreshes arrive before their token expires and the second attempts succeed: no refresh is rejected, no call fails,
   and once there is a session there is one ever after. Many calls may be rejected at the same time.
   */
  lemma NobodyIsSignedOut(before: seq<Event>, s: Client, more: seq<Event>, s': Client)
    requires s == Replay(Fresh(), before) && s' == Replay(s, more)
    requires CalmRun(Fresh(), before) && CalmRun(s, more) && Orderly(s')
    ensures forall c :: c in s'.calls ==> !s'.calls[c].Failed? && !s'.calls[c].Rejected?
    ensures s.store.Some? ==> s'.store.Some?
  {
    OrderlyBefore(s, more);
    FineReplay(Fresh(), before);
    FineReplay(s, more);
    forall c | c in s'.calls ensures !s'.calls[c].Failed? && !s'.calls[c].Rejected? {
      assert Fine(s'.calls[c], s'.store);
    }
  }

  /** A call that resumes after another has refreshed sends nothing and goes on to its second attempt. */
  lemma LateCallRetries(s: Client, c: Call, access: nat, session: Pair)
    requires At(s, c) && s.calls[c] == Loaded(access, Some(session)) && session.access != access && s.queue == [c]
    ensures var s' := Next(s, Resume(0));
            s'.calls[c] == Retrying && s'.store == s.store && s'.server == s.server && s'.refreshTask == s.refreshTask
  {
  }

  /** One that resumes with the session it failed with joins the refresh in flight, or starts one. */
  lemma SameSessionRefreshes(s: Client, c: Call, session: Pair)
    requires At(s, c) && s.calls[c] == Loaded(session.access, Some(session)) && s.queue == [c]
    ensures var s' := Next(s, Resume(0));
            && s'.store == s.store && s'.server == s.server
            && s'.calls[c] == (if s.refreshTask.Some? then Awaiting(s.refreshTask.value) else Posting(session))
            && s'.refreshTask == if s.refreshTask.Some? then s.refreshTask else Some(c)
  {
  }

  /** The server's answer to the refresh does not give the call a new session. */
  predicate Fruitless(s: Client, e: Event, current: Pair) {
    && e.ServerRefreshes? && e.refresh !in s.server.table && e.access !in s.accesses
    && (!e.delivered
        || !RefreshFamilies.Rotate(s.server.table, current.refresh, e.refresh, e.now + 2_592_000, e.now).1.Rotated?)
  }

  /** In every state a refresh is rejected exactly when its request is lost or the answer is none the call can use. */
  lemma RejectedIff(s: Client, e: Event, c: Call)
    requires At(s, c) && !s.calls[c].Rejected?
    ensures Next(s, e).calls[c].Rejected?
            <==> && s.calls[c].Posting?
                 && (e == RequestLost(c) || (e.ServerRefreshes? && e.c == c && Fruitless(s, e, s.calls[c].current)))
  {
  }

  /**
   In every state a call fails exactly when it resumes without a session, its own refresh or the one it joined was
   rejected, or its second attempt is.
   */
  lemma FailsIff(s: Client, e: Event, c: Call)
    requires At(s, c) && !s.calls[c].Failed?
    ensures Next(s, e).calls[c].Failed?
            <==> || (e.Resume? && e.i < |s.queue| && s.queue[e.i] == c && s.calls[c].Loaded?
                     && s.calls[c].session.None?)
                 || (e == Unwind(c) && s.calls[c].Rejected?)
                 || (e == AwaitEnds(c, false) && s.calls[c].Awaiting?)
                 || (e == Retry(c, false) && s.calls[c].Retrying?)
  {
    if e.ServerRefreshes? {
      NoneFailsAtTheServer(s, e, c);
    }
  }

  lemma NoneFailsAtTheServer(s: Client, e: Event, c: Call)
    requires At(s, c) && !s.calls[c].Failed? && e.ServerRefreshes?
    ensures !Next(s, e).calls[c].Failed?
  {
  }

  /** The session ends exactly when such a call clears it or a sign-out does. */
  lemma SessionEndsIff(s: Client, e: Event)
    requires s.store.Some?
    ensures Next(s, e).store.None? <==> e.ClearStored? || (e.Clear? && At(s, e.c) && s.calls[e.c].Failed?)
  {
  }
}
