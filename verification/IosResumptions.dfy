/**
 The side conditions of the iOS client's single flight, exactly: which resumptions and which forgotten
 tasks lead to a second use of a refresh token, and that resumptions in order never do.
 */
module IosResumptions {
  import opened Options
  import RefreshFamilies
  import opened TokenPairs
  import opened IosSingleFlight

  // ----- Resumptions in the order in which the session store finished -----

  /** The owner has saved and its resumption is queued behind position `i`. */
  ghost predicate OwnerSavedAfter(s: Client, i: nat) {
    exists j :: i < j < |s.queue| && s.queue[j] in s.calls && s.calls[s.queue[j]].Saved?
  }

  predicate Posts(p: Phase) {
    p.Loaded? && p.session.Some? && p.session.value.access == p.access
  }

  ghost predicate AheadOfOwner(s: Client, i: nat, p: Phase) {
    Posts(p) ==> Good(s, p.session.value) || OwnerGranted(s) || OwnerSavedAfter(s, i)
  }

  /** A session that was loaded and has since been spent resumes before the refresh task is forgotten. */
  ghost predicate StaleLoadsAhead(s: Client) {
    forall i :: 0 <= i < |s.queue| && s.queue[i] in s.calls ==> AheadOfOwner(s, i, s.calls[s.queue[i]])
  }

  predicate InOrder(s: Client) {
    s.lost == 0 && s.reordered == 0 && s.dropped == 0
  }

  ghost predicate OrderInv(s: Client) {
    Inv(s) && (InOrder(s) ==> Orderly(s) && StaleLoadsAhead(s))
  }

  lemma UnspentBehindSavedHead(s: Client, c: Call)
    requires Inv(s) && Orderly(s) && StaleLoadsAhead(s) && s.queue != [] && s.calls[s.queue[0]].Saved?
    requires c in s.calls && Posts(s.calls[c])
    ensures !Stale(s, s.calls[c])
  {
    assert Queued(s.calls[c]);
    var k :| 0 <= k < |s.queue| && s.queue[k] == c;
    assert s.refreshTask == Some(s.queue[0]);
    forall j | k < j < |s.queue| ensures !s.calls[s.queue[j]].Saved? {
      assert s.queue[0] != s.queue[j];
    }
    assert AheadOfOwner(s, k, s.calls[c]);
  }

  /** The owner at the head of the queue overtakes nobody. */
  lemma HeadOvertakesNobody(s: Client)
    requires Inv(s) && Orderly(s) && StaleLoadsAhead(s) && s.queue != []
    ensures !Overtakes(s, 0)
  {
    if s.calls[s.queue[0]].Saved? {
      forall c | c in s.calls ensures !Stale(s, s.calls[c]) {
        if Posts(s.calls[c]) {
          UnspentBehindSavedHead(s, c);
        }
      }
    }
  }

  /** Queue and queued calls unchanged: only the goodness of loaded pairs and the owner matter. */
  lemma AheadFramed(s: Client, s': Client)
    requires StaleLoadsAhead(s) && QueueMatches(s) && s'.queue == s.queue
    requires forall i :: 0 <= i < |s.queue| ==> s.queue[i] in s'.calls && s'.calls[s.queue[i]] == s.calls[s.queue[i]]
    requires OwnerGranted(s) ==> OwnerGranted(s')
    requires OwnerGranted(s') || forall p :: Good(s, p) ==> Good(s', p)
    ensures StaleLoadsAhead(s')
  {
    forall i | 0 <= i < |s'.queue| && s'.queue[i] in s'.calls ensures AheadOfOwner(s', i, s'.calls[s'.queue[i]]) {
      assert AheadOfOwner(s, i, s.calls[s.queue[i]]);
      if OwnerSavedAfter(s, i) {
        var j :| i < j < |s.queue| && s.queue[j] in s.calls && s.calls[s.queue[j]].Saved?;
        assert s'.calls[s'.queue[j]].Saved?;
      }
    }
  }

  /** Dropping the head keeps every stale load ahead of the owner's resumption. */
  lemma AheadResumed(s: Client)
    requires Inv(s) && Orderly(s) && StaleLoadsAhead(s) && s.queue != []
    ensures StaleLoadsAhead(Next(s, Resume(0)))
  {
    var s' := Next(s, Resume(0));
    LocalHistory(s, Resume(0));
    ResumeAt(s, 0);
    assert OwnerGranted(s) ==> OwnerGranted(s');
    forall i | 0 <= i < |s'.queue| && s'.queue[i] in s'.calls ensures AheadOfOwner(s', i, s'.calls[s'.queue[i]]) {
      assert s'.queue[i] == s.queue[i + 1] && AheadOfOwner(s, i + 1, s.calls[s.queue[i + 1]]);
      if OwnerSavedAfter(s, i + 1) {
        var j :| i + 1 < j < |s.queue| && s.queue[j] in s.calls && s.calls[s.queue[j]].Saved?;
        assert s'.queue[j - 1] == s.queue[j] && s'.calls[s.queue[j]] == s.calls[s.queue[j]];
      }
    }
  }

  /** A load appended now is fresh; a save appended now is behind every earlier load. */
  lemma AheadAppended(s: Client, e: Event)
    requires Inv(s) && Orderly(s) && StaleLoadsAhead(s) && (e.Load? || e.Save?) && Next(s, e) != s
    ensures StaleLoadsAhead(Next(s, e))
  {
    var s' := Next(s, e);
    LocalHistory(s, e);
    var n := |s.queue|;
    assert s'.queue == s.queue + [e.c] && s'.queue[n] == e.c;
    forall i | 0 <= i < |s'.queue| && s'.queue[i] in s'.calls ensures AheadOfOwner(s', i, s'.calls[s'.queue[i]]) {
      if i < n {
        assert s'.queue[i] == s.queue[i] && AheadOfOwner(s, i, s.calls[s.queue[i]]);
        if OwnerSavedAfter(s, i) {
          var j :| i < j < |s.queue| && s.queue[j] in s.calls && s.calls[s.queue[j]].Saved?;
          assert s'.queue[j] == s.queue[j] && s'.calls[s'.queue[j]].Saved?;
        }
      }
    }
  }

  lemma AheadLocal(s: Client, e: Event)
    requires Inv(s) && Orderly(s) && StaleLoadsAhead(s) && Local(e) && InOrder(Next(s, e))
    ensures StaleLoadsAhead(Next(s, e))
  {
    var s' := Next(s, e);
    if s' == s {
    } else if e.Resume? {
      AheadResumed(s);
    } else if e.Load? || e.Save? {
      AheadAppended(s, e);
    } else {
      AheadOther(s, e);
    }
  }

  /** No load, save or resumption: the queue stays, and the owner stays busy. */
  lemma AheadOther(s: Client, e: Event)
    requires Inv(s) && Orderly(s) && StaleLoadsAhead(s) && Local(e) && s.dropped == Next(s, e).dropped
    requires !e.Resume? && !e.Load? && !e.Save?
    ensures StaleLoadsAhead(Next(s, e))
  {
    var s' := Next(s, e);
    LocalHistory(s, e);
    assert s'.queue == s.queue && (OwnerGranted(s) ==> OwnerGranted(s'));
    AheadFramed(s, s');
  }

  lemma AheadServer(s: Client, e: Event)
    requires Inv(s) && Orderly(s) && StaleLoadsAhead(s) && !Local(e) && InOrder(Next(s, e))
    ensures StaleLoadsAhead(Next(s, e))
  {
    var s' := Next(s, e);
    if s' == s {
    } else if e.ServerRefreshes? {
      AheadRefresh(s, e.c, Pair(e.access, e.refresh), e.now, e.delivered);
    } else {
      var a := if e.Login? then RefreshFamilies.Issue(e.user, e.family, e.refresh, e.now) else e.action;
      ServerActionKeeps(s, s', a);
      AheadFramed(s, s');
    }
  }

  lemma AheadRefresh(s: Client, c: Call, replacement: Pair, now: int, delivered: bool)
    requires Inv(s) && Orderly(s) && StaleLoadsAhead(s) && At(s, c) && s.calls[c].Posting?
    requires replacement.refresh !in s.server.table && replacement.access !in s.accesses
    requires InOrder(ServerStep(s, c, replacement, now, delivered))
    ensures StaleLoadsAhead(ServerStep(s, c, replacement, now, delivered))
  {
    assert Good(s, s.calls[c].current);
    UnusedNotReuse(s.server, s.calls[c].current.refresh, replacement.refresh, now + RefreshFamilies.REFRESH_TTL, now);
    AheadFramed(s, ServerStep(s, c, replacement, now, delivered));
  }

  lemma OrderNext(s: Client, e: Event)
    requires OrderInv(s)
    ensures OrderInv(Next(s, e))
  {
    InvNext(s, e);
    if InOrder(Next(s, e)) {
      assert InOrder(s);
      if Local(e) {
        if e.Resume? && Next(s, e) != s {
          HeadOvertakesNobody(s);
        }
        AheadLocal(s, e);
      } else {
        AheadServer(s, e);
      }
    }
  }

  lemma {:induction false} OrderReplay(s: Client, events: seq<Event>)
    requires OrderInv(s)
    ensures OrderInv(Replay(s, events))
    decreases |events|
  {
    if events != [] {
      OrderNext(s, events[0]);
      OrderReplay(Next(s, events[0]), events[1..]);
    }
  }

  /**
   When resumptions keep the order in which the session store finished, no owner overtakes anybody: the server
   never reports reuse, as long as every committed refresh is answered and no sign-out forgets one in flight.
   */
  lemma InOrderNeverOvertakes(events: seq<Event>)
    requires InOrder(Replay(Fresh(), events))
    ensures Orderly(Replay(Fresh(), events)) && Replay(Fresh(), events).reuses == 0
  {
    OrderReplay(Fresh(), events);
  }

  // ----- Which resumption is harmful -----

  /** Resuming at `k` starts a refresh with a token that is already used. */
  predicate PostsUsed(s: Client, k: nat) {
    && k < |s.queue| && At(s, s.queue[k])
    && var p := Next(s, Resume(k)).calls[s.queue[k]];
       p.Posting? && !Unused(s.server, p.current.refresh)
  }

  lemma StalePosts(s: Client, k: nat)
    requires k < |s.queue| && At(s, s.queue[k]) && Stale(s, s.calls[s.queue[k]]) && s.refreshTask.None?
    ensures PostsUsed(s, k)
  {
  }

  lemma SavedResumed(s: Client, i: nat)
    requires i < |s.queue| && At(s, s.queue[i]) && s.calls[s.queue[i]].Saved?
    ensures var s' := Next(s, Resume(i));
            s'.refreshTask == None && s'.server == s.server && s'.calls == s.calls[s.queue[i] := Retrying]
  {
  }

  lemma OvertakenWaits(s: Client, i: nat, c: Call)
    requires QueueMatches(s) && i < |s.queue| && At(s, s.queue[i]) && s.calls[s.queue[i]].Saved?
    requires c in s.calls && Queued(s.calls[c]) && c != s.queue[i]
    ensures c in Next(s, Resume(i)).queue
  {
    SavedResumed(s, i);
    ResumeQueue(s, i);
  }

  lemma OvertakenPostsUsed(s: Client, i: nat)
    requires Inv(s) && Orderly(s) && i < |s.queue| && Overtakes(s, i)
    ensures exists k :: PostsUsed(Next(s, Resume(i)), k)
  {
    var c :| c in s.calls && Stale(s, s.calls[c]);
    SavedResumed(s, i);
    OvertakenWaits(s, i, c);
    var s' := Next(s, Resume(i));
    var k :| 0 <= k < |s'.queue| && s'.queue[k] == c;
    StalePosts(s', k);
  }

  /**
   In every run that has been orderly so far, and for a resumption at any position of the queue: afterwards some call
   would post a used token if and only if the one resumed is the owner of a finished refresh and overtook
   a call that holds the session it replaced.
   */
  lemma ResumptionHarmsIffOvertakes(events: seq<Event>, i: nat)
    requires var s := Replay(Fresh(), events); Orderly(s) && i < |s.queue| && At(s, s.queue[i])
    ensures var s := Replay(Fresh(), events);
            (exists k :: PostsUsed(Next(s, Resume(i)), k)) <==> Overtakes(s, i)
  {
    InvReplay(Fresh(), events);
    var s := Replay(Fresh(), events);
    var s' := Next(s, Resume(i));
    if Overtakes(s, i) {
      OvertakenPostsUsed(s, i);
    } else {
      InvNext(s, Resume(i));
      assert Orderly(s');
      forall k | PostsUsed(s', k) ensures false {
        ResumedIsGood(s', k);
      }
    }
  }

  // ----- Who forgets a task -----

  /** As long as no sign-out forgot a refresh in flight, whoever is about to forget the task owns it. */
  ghost predicate TaskInv(s: Client) {
    s.dropped == 0 ==> QueueMatches(s) && TaskHasOneOwner(s)
  }

  lemma TaskNext(s: Client, e: Event)
    requires TaskInv(s)
    ensures TaskInv(Next(s, e))
  {
    if Next(s, e).dropped == 0 {
      assert s.dropped == 0;
      if Local(e) {
        LocalQueue(s, e);
        LocalTask(s, e);
      } else {
        TaskServer(s, e);
      }
    }
  }

  /** A server step moves the posting owner on, or leaves every call where it was. */
  lemma TaskServer(s: Client, e: Event)
    requires QueueMatches(s) && TaskHasOneOwner(s) && !Local(e)
    ensures QueueMatches(Next(s, e)) && TaskHasOneOwner(Next(s, e))
  {
    var s' := Next(s, e);
    assert s'.queue == s.queue && s'.refreshTask == s.refreshTask;
    forall c | c in s'.calls
      ensures c in s.calls ==> OwnsTask(s'.calls[c]) == OwnsTask(s.calls[c])
      ensures c in s.calls && Queued(s.calls[c]) ==> s'.calls[c] == s.calls[c]
      ensures Queued(s'.calls[c]) ==> c in s.calls && Queued(s.calls[c])
      ensures c !in s.calls ==> s'.calls[c].LoggedIn?
    {
    }
  }

  lemma {:induction false} TaskReplay(s: Client, events: seq<Event>)
    requires TaskInv(s)
    ensures TaskInv(Replay(s, events))
    decreases |events|
  {
    if events != [] {
      TaskNext(s, events[0]);
      TaskReplay(Next(s, events[0]), events[1..]);
    }
  }

  /** A finishing step of call `c` sets the task to nil: after a failure, or resuming after its save. */
  predicate Finishes(s: Client, f: Event, c: Call) {
    && c in s.calls
    && ((f == Unwind(c) && s.calls[c].Rejected?)
        || (f.Resume? && f.i < |s.queue| && s.queue[f.i] == c && s.calls[c].Saved?))
  }

  /**
   Losing answers and any order of resumptions aside: without such a sign-out a call only ever forgets its own
   task.
   */
  lemma OwnersForgetTheirOwn(events: seq<Event>, f: Event, c: Call)
    requires var s := Replay(Fresh(), events); s.dropped == 0 && Finishes(s, f, c)
    ensures Replay(Fresh(), events).refreshTask == Some(c)
  {
    TaskReplay(Fresh(), events);
  }
}
