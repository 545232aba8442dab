/**
 Whose refresh the server reports as reuse on Android, over any further steps of any number of instances: lost
 answers and a second instance harm in one way only, by letting a call load a session that is already spent.
 */
module AndroidReports {
  import opened Options
  import RefreshFamilies
  import opened TokenPairs
  import opened AndroidSingleFlight

  // ----- When a waiting call replays a consumed token, exactly -----

  predicate WritesStore(e: Event) {
    e.Save? || e.Clear? || e.SaveLogin? || e.SignOut?
  }

  /** What is left to do once a refresh is committed: save the answer, or clear the session if it was lost. */
  function Settlement(c: Call, delivered: bool): Event {
    if delivered then Save(c) else Clear(c)
  }

  /** `p` was spent by call `c` for `r`, and c has or has not yet settled that in the stored session. */
  ghost predicate Spent(s: Client, c: Call, p: Pair, r: Pair, delivered: bool, settled: bool) {
    && p.refresh in s.server.table && !Unused(s.server, p.refresh) && r.access != p.access && At(s, c)
    && (if settled then s.store == (if delivered then Some(r) else None) && (s.calls[c].Reloading?
        || s.calls[c].Finished?)
        else s.store == Some(p) && s.calls[c] == if delivered then Granted(r) else Failed)
  }

  lemma ServerKeepsUsed(s: Client, e: Event, h: RefreshFamilies.Hash)
    requires h in s.server.table && !Unused(s.server, h)
    ensures h in Next(s, e).server.table && !Unused(Next(s, e).server, h)
  {
    if Next(s, e).server != s.server {
      var a := if e.Login? then RefreshFamilies.Issue(e.user, e.family, e.refresh, e.now)
               else if e.Others? then e.action else RefreshFamilies.Refresh(s.calls[e.c].current.refresh, e.refresh,
                   e.now);
      TableGrows(s.server, a, h);
      UsedStays(s.server, a, h);
    }
  }

  lemma SpentNext(s: Client, e: Event, c: Call, p: Pair, r: Pair, delivered: bool, settled: bool)
    requires Spent(s, c, p, r, delivered, settled)
    requires WritesStore(e) ==> e == Settlement(c, delivered)
    ensures Spent(Next(s, e), c, p, r, delivered, settled || e == Settlement(c, delivered))
  {
    ServerKeepsUsed(s, e, p.refresh);
  }

  lemma {:induction false} SpentReplay(s: Client, more: seq<Event>, c: Call, p: Pair, r: Pair, delivered: bool,
                                       settled: bool)
    requires Spent(s, c, p, r, delivered, settled)
    requires forall i :: 0 <= i < |more| && WritesStore(more[i]) ==> more[i] == Settlement(c, delivered)
    ensures Spent(Replay(s, more), c, p, r, delivered, settled || Settlement(c, delivered) in more)
    decreases |more|
  {
    if more != [] {
      SpentNext(s, more[0], c, p, r, delivered, settled);
      SpentReplay(Next(s, more[0]), more[1..], c, p, r, delivered, settled || more[0] == Settlement(c, delivered));
    }
  }

  /** The pairs that calls carry, and the stored one. */
  ghost function Around(s: Client): set<Pair> {
    (set c | c in s.calls && Carried(s.calls[c]).Some? :: Carried(s.calls[c]).value)
    + (if s.store.Some? then {s.store.value} else {})
  }

  /** With no condition on the run: an access token was issued, and tells its pair. */
  ghost predicate Told(s: Client) {
    && (forall p :: p in Around(s) ==> p.access in s.accesses)
    && (forall p, q :: p in Around(s) && q in Around(s) && p.access == q.access ==> p == q)
  }

  lemma AroundGrows(s: Client, e: Event)
    ensures forall p :: p in Around(Next(s, e)) ==>
              p in Around(s) || ((e.ServerRefreshes? || e.Login?) && p == Pair(e.access, e.refresh)
                  && p.access !in s.accesses)
    ensures s.accesses <= Next(s, e).accesses
    ensures forall p :: p in Around(Next(s, e)) && p !in Around(s) ==> p.access in Next(s, e).accesses
  {
    var s' := Next(s, e);
    forall d | d in s'.calls && Carried(s'.calls[d]).Some?
      ensures || (d in s.calls && Carried(s'.calls[d]) == Carried(s.calls[d])) || Carried(s'.calls[d]) == s.store
              || ((e.ServerRefreshes? || e.Login?) && d == e.c
                  && Carried(s'.calls[d]) == Some(Pair(e.access, e.refresh))
                  && e.access !in s.accesses && e.access in s'.accesses)
    {
    }
    assert s'.store.None? || s'.store == s.store || (e.c in s.calls && Carried(s.calls[e.c]) == s'.store);
  }

  lemma ToldNext(s: Client, e: Event)
    requires Told(s)
    ensures Told(Next(s, e))
  {
    AroundGrows(s, e);
  }

  lemma {:induction false} ToldReplay(s: Client, events: seq<Event>)
    requires Told(s)
    ensures Told(Replay(s, events))
    decreases |events|
  {
    if events != [] {
      ToldNext(s, events[0]);
      ToldReplay(Next(s, events[0]), events[1..]);
    }
  }

  /** Call `c` has posted the stored pair `p`, and the server is about to commit its refresh for `r`. */
  predicate Committing(s: Client, c: Call, p: Pair, r: Pair, now: int) {
    && At(s, c) && s.calls[c] == Posting(p) && s.store == Some(p)
    && r.refresh !in s.server.table && r.access !in s.accesses
    && RefreshFamilies.Acceptable(s.server.table, p.refresh, now) && Unused(s.server, p.refresh)
  }

  lemma CommitSpends(s: Client, c: Call, p: Pair, r: Pair, now: int, delivered: bool)
    requires Told(s) && Committing(s, c, p, r, now)
    ensures Spent(Next(s, ServerRefreshes(c, r.access, r.refresh, now, delivered)), c, p, r, delivered, false)
  {
    assert p in Around(s);
  }

  /** Call `d` answers for `p`'s access token: if it posts on that token's behalf, it posts `p`. */
  predicate PostsOnly(s: Client, d: Call, p: Pair) {
    At(s, d) && s.calls[d].Posting? && s.calls[d].current.access == p.access ==> s.calls[d].current == p
  }

  /** At this step `d`, inside a mutex on behalf of `p`'s access token, loads the session. */
  predicate LoadsFor(s: Client, e: Event, d: Call, p: Pair) {
    e == LoadInside(d) && At(s, d) && s.calls[d] == Holding(p.access)
  }

  /** Call `d` has loaded the session before `c` settled: before the commit, or since and ahead of the settlement. */
  ghost predicate LoadedBefore(s: Client, more: seq<Event>, settlement: Event, d: Call, p: Pair) {
    || (At(s, d) && s.calls[d] == Posting(p))
    || exists i :: 0 <= i < |more| && LoadsFor(Replay(s, more[..i]), more[i], d, p) && settlement !in more[..i]
  }

  /** The request of `d` neither arrives nor is lost. */
  predicate UnderWay(e: Event, d: Call) {
    !(e.ServerRefreshes? && e.c == d) && e != RequestLost(d)
  }

  lemma LoadedBeforeAppend(s: Client, more: seq<Event>, settlement: Event, d: Call, p: Pair)
    requires more != []
    ensures var n := |more| - 1;
            LoadedBefore(s, more, settlement, d, p)
            <==> LoadedBefore(s, more[..n], settlement, d, p)
                 || (LoadsFor(Replay(s, more[..n]), more[n], d, p) && settlement !in more[..n])
  {
    var n := |more| - 1;
    assert forall i :: 0 <= i < n ==> more[..n][..i] == more[..i];
    if i :| 0 <= i < |more| && LoadsFor(Replay(s, more[..i]), more[i], d, p) && settlement !in more[..i] {
      assert i < n ==> LoadsFor(Replay(s, more[..n][..i]), more[..n][i], d, p);
    }
    if i :| 0 <= i < n && LoadsFor(Replay(s, more[..n][..i]), more[..n][i], d, p) && settlement !in more[..n][..i] {
      assert LoadsFor(Replay(s, more[..i]), more[i], d, p);
    }
  }

  lemma PostsStep(s: Client, e: Event, c: Call, p: Pair, r: Pair, delivered: bool, settled: bool, d: Call)
    requires Spent(s, c, p, r, delivered, settled) && PostsOnly(s, d, p) && UnderWay(e, d)
    ensures var s' := Next(s, e);
            && PostsOnly(s', d, p)
            && (At(s', d) && s'.calls[d] == Posting(p)
                <==> (At(s, d) && s.calls[d] == Posting(p)) || (LoadsFor(s, e, d, p) && !settled))
  {
  }

  lemma {:induction false} PostsIffLoadedBefore(s: Client, more: seq<Event>, c: Call, p: Pair, r: Pair,
                                                delivered: bool, d: Call)
    requires Spent(s, c, p, r, delivered, false) && PostsOnly(s, d, p)
    requires forall i :: 0 <= i < |more| ==>
               UnderWay(more[i], d) && (WritesStore(more[i]) ==> more[i] == Settlement(c, delivered))
    ensures var s' := Replay(s, more);
            && PostsOnly(s', d, p)
            && (At(s', d) && s'.calls[d] == Posting(p) <==> LoadedBefore(s, more, Settlement(c, delivered), d, p))
    decreases |more|
  {
    if more != [] {
      var n := |more| - 1;
      PostsIffLoadedBefore(s, more[..n], c, p, r, delivered, d);
      LoadedBeforeAppend(s, more, Settlement(c, delivered), d, p);
      SpentReplay(s, more[..n], c, p, r, delivered, false);
      assert more == more[..n] + [more[n]];
      ReplayAppend(s, more[..n], more[n]);
      PostsStep(Replay(s, more[..n]), more[n], c, p, r, delivered, Settlement(c, delivered) in more[..n], d);
    }
  }

  lemma ReplayAppend(s: Client, events: seq<Event>, e: Event)
    ensures Replay(s, events + [e]) == Next(Replay(s, events), e)
  {
    ReplayConcat(s, events, [e]);
    assert Replay(Replay(s, events), [e]) == Replay(Next(Replay(s, events), e), []);
  }

  // ----- And with no condition on who writes the stored session -----

  /** Nobody has another pair with the access token of `p`. */
  ghost predicate Only(s: Client, p: Pair) {
    p.access in s.accesses && forall q :: q in Around(s) && q.access == p.access ==> q == p
  }

  lemma OnlyNext(s: Client, e: Event, p: Pair)
    requires Only(s, p)
    ensures Only(Next(s, e), p)
  {
    AroundGrows(s, e);
  }

  predicate LoadsStored(s: Client, e: Event, d: Call, p: Pair) {
    LoadsFor(s, e, d, p) && s.store == Some(p)
  }

  /** Call `d` has loaded `p`: before, or since while it was stored. */
  ghost predicate LoadedStored(s: Client, more: seq<Event>, d: Call, p: Pair) {
    || (At(s, d) && s.calls[d] == Posting(p))
    || exists i :: 0 <= i < |more| && LoadsStored(Replay(s, more[..i]), more[i], d, p)
  }

  lemma LoadedStoredAppend(s: Client, more: seq<Event>, d: Call, p: Pair)
    requires more != []
    ensures var n := |more| - 1;
            LoadedStored(s, more, d, p)
            <==> LoadedStored(s, more[..n], d, p) || LoadsStored(Replay(s, more[..n]), more[n], d, p)
  {
    var n := |more| - 1;
    assert forall i :: 0 <= i < n ==> more[..n][..i] == more[..i];
    if i :| 0 <= i < |more| && LoadsStored(Replay(s, more[..i]), more[i], d, p) {
      assert i < n ==> LoadsStored(Replay(s, more[..n][..i]), more[..n][i], d, p);
    }
    if i :| 0 <= i < n && LoadsStored(Replay(s, more[..n][..i]), more[..n][i], d, p) {
      assert LoadsStored(Replay(s, more[..i]), more[i], d, p);
    }
  }

  lemma StoredStep(s: Client, e: Event, d: Call, p: Pair)
    requires Only(s, p) && PostsOnly(s, d, p) && UnderWay(e, d)
    ensures var s' := Next(s, e);
            && PostsOnly(s', d, p)
            && (At(s', d) && s'.calls[d] == Posting(p)
                <==> (At(s, d) && s.calls[d] == Posting(p)) || LoadsStored(s, e, d, p))
  {
    if s.store.Some? {
      assert s.store.value in Around(s);
    }
  }

  lemma {:induction false} PostsIffLoadedStored(s: Client, more: seq<Event>, d: Call, p: Pair)
    requires Only(s, p) && PostsOnly(s, d, p) && forall i :: 0 <= i < |more| ==> UnderWay(more[i], d)
    ensures var s' := Replay(s, more);
            && Only(s', p) && PostsOnly(s', d, p)
            && (At(s', d) && s'.calls[d] == Posting(p) <==> LoadedStored(s, more, d, p))
    decreases |more|
  {
    if more != [] {
      var n := |more| - 1;
      PostsIffLoadedStored(s, more[..n], d, p);
      LoadedStoredAppend(s, more, d, p);
      assert more == more[..n] + [more[n]];
      ReplayAppend(s, more[..n], more[n]);
      OnlyNext(Replay(s, more[..n]), more[n], p);
      StoredStep(Replay(s, more[..n]), more[n], d, p);
    }
  }

  /**
   In any run, let `p` be a session that is stored or in some call's hands, and let `more` be any further steps
   of any number of instances. Once p's token has been used, let the refresh of any call `d` that answers for p's
   access token arrive at any point, while the family is neither expired nor revoked. The server reports
   reuse if and only if d, inside its mutex, loaded the session while it was still p.
   */
  lemma ReportedIffLoadedWhileStored(events: seq<Event>, s: Client, p: Pair, more: seq<Event>, s': Client,
                                     d: Call, r: Pair, now: int, delivered: bool)
    requires s == Replay(Fresh(), events) && p in Around(s) && s' == Replay(s, more)
    requires forall i :: 0 <= i < |more| ==> UnderWay(more[i], d)
    requires !Unused(s'.server, p.refresh) && RefreshFamilies.Acceptable(s'.server.table, p.refresh, now)
    requires At(s', d) && (s'.calls[d].Posting? ==> s'.calls[d].current.access == p.access)
    requires r.refresh !in s'.server.table && r.access !in s'.accesses
    ensures Next(s', ServerRefreshes(d, r.access, r.refresh, now, delivered)).reuses > s'.reuses
            <==> LoadedStored(s, more, d, p)
  {
    ToldReplay(Fresh(), events);
    if At(s, d) && s.calls[d].Posting? {
      assert Carried(s.calls[d]) == Some(s.calls[d].current) && s.calls[d].current in Around(s);
    }
    PostsIffLoadedStored(s, more, d, p);
    ReportedIffUsed(s', d, r, now, delivered);
  }

  /** A refresh that arrives is reported exactly when the token it carries is used, unexpired and unrevoked. */
  lemma ReportedIffUsed(s: Client, d: Call, r: Pair, now: int, delivered: bool)
    requires r.refresh !in s.server.table && r.access !in s.accesses
    ensures Next(s, ServerRefreshes(d, r.access, r.refresh, now, delivered)).reuses > s.reuses
            <==> At(s, d) && s.calls[d].Posting?
                 && RefreshFamilies.Acceptable(s.server.table, s.calls[d].current.refresh, now)
                 && !Unused(s.server, s.calls[d].current.refresh)
  {
  }

  /**
   Call `c` has posted the stored pair `p` and the server commits its refresh, whether or not the answer arrives. Let
   `more` be any further steps in which only c settles this in the stored session, by saving the answer or, if
   it was lost, by clearing the session outside the mutex. Let `d` be any call of any instance that answers
   for the same failed access token, and let its refresh arrive, at any later point, while the family is neither
   expired nor revoked. The server reports reuse if and only if d loaded the session before c had settled,
   be it before or after c's own refresh reached the server.
   */
  lemma ReportedIffLoadedBeforeSettled(events: seq<Event>, s: Client, c: Call, p: Pair, r: Pair, now: int,
                                       delivered: bool,
                                       s1: Client, more: seq<Event>, s': Client,
                                       d: Call, r': Pair, now': int, delivered': bool)
    requires s == Replay(Fresh(), events) && Committing(s, c, p, r, now)
    requires s1 == Next(s, ServerRefreshes(c, r.access, r.refresh, now, delivered)) && s' == Replay(s1, more)
    requires forall i :: 0 <= i < |more| ==>
               UnderWay(more[i], d) && (WritesStore(more[i]) ==> more[i] == Settlement(c, delivered))
    requires At(s', d) && (s'.calls[d].Posting? ==> s'.calls[d].current.access == p.access)
    requires RefreshFamilies.Acceptable(s'.server.table, p.refresh, now') && r'.refresh !in s'.server.table
            && r'.access !in s'.accesses
    ensures Next(s', ServerRefreshes(d, r'.access, r'.refresh, now', delivered')).reuses > s'.reuses
            <==> LoadedBefore(s1, more, Settlement(c, delivered), d, p)
  {
    ToldReplay(Fresh(), events);
    CommitSpends(s, c, p, r, now, delivered);
    PostsOnlyAtCommit(s, c, p, r, now, delivered, d);
    PostsIffLoadedBefore(s1, more, c, p, r, delivered, d);
    SpentReplay(s1, more, c, p, r, delivered, false);
    ReportedIffUsed(s', d, r', now', delivered');
  }

  lemma PostsOnlyAtCommit(s: Client, c: Call, p: Pair, r: Pair, now: int, delivered: bool, d: Call)
    requires Told(s) && Committing(s, c, p, r, now)
    ensures PostsOnly(Next(s, ServerRefreshes(c, r.access, r.refresh, now, delivered)), d, p)
  {
    assert p in Around(s);
    if At(s, d) && s.calls[d].Posting? {
      assert Carried(s.calls[d]) == Some(s.calls[d].current) && s.calls[d].current in Around(s);
    }
  }
}
