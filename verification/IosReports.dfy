/**
 Whose refresh the server reports as reuse on iOS, over any further steps: sign-outs, late owners, lost answers
 and reordered resumptions harm in one way only, by letting a call resume with a session while no task is set.
 */
module IosReports {
  import opened Options
  import RefreshFamilies
  import opened TokenPairs
  import opened IosSingleFlight
  import opened IosResumptions

  // ----- Whose refresh is reported, over any further steps -----

  /** With no condition on the run: an access token was issued, and tells its pair. */
  ghost predicate Told(s: Client) {
    && (forall p :: p in Around(s) ==> p.access in s.accesses)
    && (forall p, q :: p in Around(s) && q in Around(s) && p.access == q.access ==> p == q)
  }

  predicate Issues(s: Client, e: Event, p: Pair) {
    (e.ServerRefreshes? || e.Login?) && p == Pair(e.access, e.refresh) && p.access !in s.accesses
  }

  lemma CarriedResume(s: Client, i: nat, d: Call)
    requires d in Next(s, Resume(i)).calls && Carried(Next(s, Resume(i)).calls[d]).Some?
    ensures d in s.calls && Carried(Next(s, Resume(i)).calls[d]) == Carried(s.calls[d])
  {
  }

  lemma CarriedServer(s: Client, e: Event, d: Call)
    requires !Local(e) && d in Next(s, e).calls && Carried(Next(s, e).calls[d]).Some?
    ensures var p := Carried(Next(s, e).calls[d]);
            (d in s.calls && p == Carried(s.calls[d])) || (Issues(s, e, p.value)
                && p.value.access in Next(s, e).accesses)
  {
  }

  lemma CarriedLocal(s: Client, e: Event, d: Call)
    requires Local(e) && !e.Resume? && d in Next(s, e).calls && Carried(Next(s, e).calls[d]).Some?
    ensures var p := Carried(Next(s, e).calls[d]); (d in s.calls && p == Carried(s.calls[d])) || p == s.store
  {
  }

  lemma CarriedFrom(s: Client, e: Event, d: Call)
    requires d in Next(s, e).calls && Carried(Next(s, e).calls[d]).Some?
    ensures var p := Carried(Next(s, e).calls[d]);
            || (d in s.calls && p == Carried(s.calls[d])) || p == s.store
            || (Issues(s, e, p.value) && p.value.access in Next(s, e).accesses)
  {
    if e.Resume? {
      CarriedResume(s, e.i, d);
    } else if Local(e) {
      CarriedLocal(s, e, d);
    } else {
      CarriedServer(s, e, d);
    }
  }

  lemma StoredFrom(s: Client, e: Event)
    ensures Next(s, e).store.Some? ==> Next(s, e).store.value in Around(s)
  {
    var s' := Next(s, e);
    assert s'.store == s.store || s'.store.None?
      || ((e.Save? || e.SaveLogin?) && e.c in s.calls && Carried(s.calls[e.c]) == s'.store);
  }

  lemma AroundGrows(s: Client, e: Event)
    ensures forall p :: p in Around(Next(s, e)) && p !in Around(s) ==>
              Issues(s, e, p) && p.access in Next(s, e).accesses
    ensures s.accesses <= Next(s, e).accesses
  {
    var s' := Next(s, e);
    StoredFrom(s, e);
    forall p | p in Around(s') && p !in Around(s) ensures Issues(s, e, p) && p.access in s'.accesses {
      var d :| d in s'.calls && Carried(s'.calls[d]) == Some(p);
      CarriedFrom(s, e, d);
    }
  }

  lemma ToldNext(s: Client, e: Event)
    requires Told(s)
    ensures Told(Next(s, e))
  {
    AroundGrows(s, e);
  }

  lemma {:induction false} ToldReplay(s: Client, events: seq<Event>)
    requires Told(s)
    ensures Told(Replay(s, events))
    decreases |events|
  {
    if events != [] {
      ToldNext(s, events[0]);
      ToldReplay(Next(s, events[0]), events[1..]);
    }
  }

  /** Nobody has another pair with the access token of `q`. */
  ghost predicate Only(s: Client, q: Pair) {
    q.access in s.accesses && forall p :: p in Around(s) && p.access == q.access ==> p == q
  }

  lemma OnlyNext(s: Client, e: Event, q: Pair)
    requires Only(s, q)
    ensures Only(Next(s, e), q)
  {
    AroundGrows(s, e);
  }

  /** Call `d` refreshes the stored session `q`, and everyone else could join it. */
  predicate Refreshing(s: Client, d: Call, q: Pair) {
    At(s, d) && s.calls[d] == Posting(q) && s.refreshTask == Some(d) && s.store == Some(q)
  }

  predicate WritesStore(e: Event) {
    e.Save? || e.Clear? || e.SaveLogin? || e.ClearStored?
  }

  predicate Saves(s: Client, e: Event, d: Call) {
    e == Save(d) && At(s, d) && s.calls[d].Granted?
  }

  ghost predicate Saved(s: Client, more: seq<Event>, d: Call) {
    exists i :: 0 <= i < |more| && Saves(Replay(s, more[..i]), more[i], d)
  }

  /** Call `x`, which failed with the access token of `q`, loads the session while that is still `q`. */
  predicate LoadsFor(s: Client, e: Event, x: Call, q: Pair) {
    e == Load(x) && At(s, x) && s.calls[x] == Unauthorized(q.access) && s.store == Some(q)
  }

  /** Call `x` holds the session `q`: from the start, or loaded while it was stored. */
  ghost predicate Holds(s: Client, more: seq<Event>, x: Call, q: Pair) {
    || (At(s, x) && s.calls[x] == Loaded(q.access, Some(q)))
    || exists i :: 0 <= i < |more| && LoadsFor(Replay(s, more[..i]), more[i], x, q)
  }

  /** Call `x`, which failed with the access token of `q`, resumes from its load while no task is set. */
  predicate ResumesAlone(s: Client, e: Event, x: Call, q: Pair) {
    && e.Resume? && e.i < |s.queue| && s.queue[e.i] == x && At(s, x)
    && s.calls[x].Loaded? && s.calls[x].access == q.access && s.refreshTask.None?
  }

  /** At some step of `more`, x does so holding `q`; or it is posting `q` from the start. */
  ghost predicate ResumesWith(s: Client, more: seq<Event>, x: Call, q: Pair) {
    || (At(s, x) && s.calls[x] == Posting(q))
    || exists i :: 0 <= i < |more| && ResumesAlone(Replay(s, more[..i]), more[i], x, q) && Holds(s, more[..i], x, q)
  }

  predicate UnderWay(e: Event, x: Call) {
    !(e.ServerRefreshes? && e.c == x) && e != RequestLost(x)
  }

  lemma ReplayAppend(s: Client, events: seq<Event>, e: Event)
    ensures Replay(s, events + [e]) == Next(Replay(s, events), e)
  {
    ReplayConcat(s, events, [e]);
    assert Replay(Replay(s, events), [e]) == Replay(Next(Replay(s, events), e), []);
  }

  lemma SavedAppend(s: Client, more: seq<Event>, d: Call)
    requires more != []
    ensures var n := |more| - 1;
            Saved(s, more, d) <==> Saved(s, more[..n], d) || Saves(Replay(s, more[..n]), more[n], d)
  {
    var n := |more| - 1;
    assert forall i :: 0 <= i < n ==> more[..n][..i] == more[..i];
    if i :| 0 <= i < |more| && Saves(Replay(s, more[..i]), more[i], d) {
      assert i < n ==> Saves(Replay(s, more[..n][..i]), more[..n][i], d);
    }
    if i :| 0 <= i < n && Saves(Replay(s, more[..n][..i]), more[..n][i], d) {
      assert Saves(Replay(s, more[..i]), more[i], d);
    }
  }

  lemma HoldsAppend(s: Client, more: seq<Event>, x: Call, q: Pair)
    requires more != []
    ensures var n := |more| - 1;
            Holds(s, more, x, q)
            <==> Holds(s, more[..n], x, q)
                 || LoadsFor(Replay(s, more[..n]), more[n], x, q)
  {
    var n := |more| - 1;
    assert forall i :: 0 <= i < n ==> more[..n][..i] == more[..i];
    if i :| 0 <= i < |more| && LoadsFor(Replay(s, more[..i]), more[i], x, q) {
      assert i < n ==> LoadsFor(Replay(s, more[..n][..i]), more[..n][i], x, q);
    }
    if i :| 0 <= i < n && LoadsFor(Replay(s, more[..n][..i]), more[..n][i], x, q) {
      assert LoadsFor(Replay(s, more[..i]), more[i], x, q);
    }
  }

  lemma ResumesAppend(s: Client, more: seq<Event>, x: Call, q: Pair)
    requires more != []
    ensures var n := |more| - 1;
            ResumesWith(s, more, x, q)
            <==> ResumesWith(s, more[..n], x, q)
                 || (ResumesAlone(Replay(s, more[..n]), more[n], x, q) && Holds(s, more[..n], x, q))
  {
    var n := |more| - 1;
    assert forall i :: 0 <= i < n ==> more[..n][..i] == more[..i];
    if i :| 0 <= i < |more| && ResumesAlone(Replay(s, more[..i]), more[i], x, q) && Holds(s, more[..i], x, q) {
      assert i < n ==> ResumesAlone(Replay(s, more[..n][..i]), more[..n][i], x, q);
    }
    if i :| 0 <= i < n && ResumesAlone(Replay(s, more[..n][..i]), more[..n][i], x, q)
            && Holds(s, more[..n][..i], x, q) {
      assert ResumesAlone(Replay(s, more[..i]), more[i], x, q);
    }
  }

  /** Until `d` saves, the stored session is `q`; afterwards it is another, and d saves nothing more. */
  ghost predicate Stored(s: Client, d: Call, q: Pair, saved: bool) {
    && At(s, d) && q.access in s.accesses
    && (if saved then (s.store.Some? ==> s.store.value.access != q.access) && Past(s.calls[d])
        else s.store == Some(q) && (Past(s.calls[d]) || s.calls[d].Posting?
                                    || (s.calls[d].Granted? && s.calls[d].replacement.access != q.access)))
  }

  /** The call will save nothing any more. */
  predicate Past(p: Phase) {
    p.Saved? || p.Rejected? || p.Retrying? || p.Failed? || p.Finished?
  }

  lemma StoredSave(s: Client, d: Call, q: Pair, saved: bool)
    requires Stored(s, d, q, saved)
    ensures Stored(Next(s, Save(d)), d, q, saved || Saves(s, Save(d), d))
  {
  }

  lemma StoredQuiet(s: Client, e: Event, d: Call, q: Pair, saved: bool)
    requires Stored(s, d, q, saved) && !WritesStore(e)
    ensures Stored(Next(s, e), d, q, saved)
  {
    var s' := Next(s, e);
    assert s'.store == s.store && s.accesses <= s'.accesses;
    PastStays(s, e, d);
  }

  lemma PastStays(s: Client, e: Event, d: Call)
    requires At(s, d) && !WritesStore(e)
    ensures At(Next(s, e), d)
    ensures Past(s.calls[d]) ==> Past(Next(s, e).calls[d])
    ensures s.calls[d].Granted? ==> Next(s, e).calls[d] == s.calls[d]
    ensures s.calls[d].Posting? ==>
              var p := Next(s, e).calls[d];
              p == s.calls[d] || Past(p) || (p.Granted? && p.replacement.access !in s.accesses)
  {
  }

  lemma StoredNext(s: Client, e: Event, d: Call, q: Pair, saved: bool)
    requires Stored(s, d, q, saved) && (WritesStore(e) ==> e == Save(d))
    ensures Stored(Next(s, e), d, q, saved || Saves(s, e, d))
  {
    if WritesStore(e) {
      StoredSave(s, d, q, saved);
    } else {
      StoredQuiet(s, e, d, q, saved);
    }
  }

  /** What `x` has in hand or has posted on behalf of the access token of `q` tells what it did. */
  predicate Answers(s: Client, x: Call, q: Pair, holds: bool, resumed: bool) {
    && (holds ==> At(s, x) && !s.calls[x].Sent? && !s.calls[x].Unauthorized?)
    && (resumed <==> At(s, x) && s.calls[x] == Posting(q))
    && (At(s, x) && s.calls[x].Loaded? && s.calls[x].access == q.access ==> (s.calls[x].session == Some(q) <==> holds))
    && (At(s, x) && s.calls[x].Posting? && s.calls[x].current.access == q.access ==> resumed)
  }

  lemma LoadAnswers(s: Client, x: Call, q: Pair, holds: bool, resumed: bool)
    requires Answers(s, x, q, holds, resumed)
    ensures Answers(Next(s, Load(x)), x, q, holds || LoadsFor(s, Load(x), x, q), resumed)
  {
  }

  lemma ResumeAnswers(s: Client, e: Event, x: Call, q: Pair, holds: bool, resumed: bool)
    requires Answers(s, x, q, holds, resumed) && Only(s, q) && e.Resume?
    ensures Answers(Next(s, e), x, q, holds, resumed || (ResumesAlone(s, e, x, q) && holds))
  {
    if At(s, x) && s.calls[x].Loaded? && s.calls[x].session.Some? {
      assert Carried(s.calls[x]) == s.calls[x].session && s.calls[x].session.value in Around(s);
    }
  }

  lemma OtherAnswers(s: Client, e: Event, x: Call, q: Pair, holds: bool, resumed: bool)
    requires Answers(s, x, q, holds, resumed) && UnderWay(e, x) && e != Load(x) && !e.Resume?
    ensures Answers(Next(s, e), x, q, holds, resumed)
  {
  }

  lemma AnswersNext(s: Client, e: Event, x: Call, q: Pair, holds: bool, resumed: bool)
    requires Answers(s, x, q, holds, resumed) && Only(s, q) && UnderWay(e, x)
    ensures Answers(Next(s, e), x, q, holds || LoadsFor(s, e, x, q), resumed || (ResumesAlone(s, e, x, q) && holds))
  {
    if e == Load(x) {
      LoadAnswers(s, x, q, holds, resumed);
    } else if e.Resume? {
      ResumeAnswers(s, e, x, q, holds, resumed);
    } else {
      OtherAnswers(s, e, x, q, holds, resumed);
    }
  }

  lemma {:induction false} AnswersReplay(s: Client, more: seq<Event>, x: Call, q: Pair)
    requires Only(s, q) && forall i :: 0 <= i < |more| ==> UnderWay(more[i], x)
    ensures var s' := Replay(s, more);
            Only(s', q) && Answers(s', x, q, Holds(s, more, x, q), ResumesWith(s, more, x, q))
    decreases |more|
  {
    if more == [] {
      AnswersAtFirst(s, x, q);
    } else {
      var n := |more| - 1;
      AnswersReplay(s, more[..n], x, q);
      assert more == more[..n] + [more[n]];
      ReplayAppend(s, more[..n], more[n]);
      HoldsAppend(s, more, x, q);
      ResumesAppend(s, more, x, q);
      var t := Replay(s, more[..n]);
      OnlyNext(t, more[n], q);
      AnswersNext(t, more[n], x, q, Holds(s, more[..n], x, q), ResumesWith(s, more[..n], x, q));
    }
  }

  lemma AnswersAtFirst(s: Client, x: Call, q: Pair)
    requires Only(s, q)
    ensures Answers(s, x, q, Holds(s, [], x, q), ResumesWith(s, [], x, q))
  {
    if At(s, x) && Carried(s.calls[x]).Some? {
      assert Carried(s.calls[x]).value in Around(s);
    }
    if At(s, x) && s.calls[x].Posting? {
      assert Carried(s.calls[x]) == Some(s.calls[x].current);
    }
  }

  /** A refresh that arrives is reported exactly when the token it carries is used, unexpired and unrevoked. */
  lemma ReportedIffUsed(s: Client, x: Call, r: Pair, now: int, delivered: bool)
    requires r.refresh !in s.server.table && r.access !in s.accesses
    ensures Next(s, ServerRefreshes(x, r.access, r.refresh, now, delivered)).reuses > s.reuses
            <==> At(s, x) && s.calls[x].Posting?
                 && RefreshFamilies.Acceptable(s.server.table, s.calls[x].current.refresh, now)
                 && !Unused(s.server, s.calls[x].current.refresh)
  {
  }

  /**
   In any run, let `q` be a session that is stored or in some call's hands, and let `more` be any further steps:
   sign-outs, logins, lost answers, resumptions in any order. Once q's token has been used, let the refresh of any
   call `x` that answers for q's access token arrive at any point, while the family is neither expired nor
   revoked. The server reports reuse if and only if x held q, loaded while it was stored, and resumed while no
   task was set.
   */
  lemma ReportedIffResumedAlone(events: seq<Event>, s: Client, q: Pair, more: seq<Event>, s': Client,
                                x: Call, r: Pair, now: int, delivered: bool)
    requires s == Replay(Fresh(), events) && q in Around(s) && s' == Replay(s, more)
    requires forall i :: 0 <= i < |more| ==> UnderWay(more[i], x)
    requires !Unused(s'.server, q.refresh) && RefreshFamilies.Acceptable(s'.server.table, q.refresh, now)
    requires At(s', x) && (s'.calls[x].Posting? ==> s'.calls[x].current.access == q.access)
    requires r.refresh !in s'.server.table && r.access !in s'.accesses
    ensures Next(s', ServerRefreshes(x, r.access, r.refresh, now, delivered)).reuses > s'.reuses
            <==> ResumesWith(s, more, x, q)
  {
    ToldReplay(Fresh(), events);
    AnswersReplay(s, more, x, q);
    ReportedIffUsed(s', x, r, now, delivered);
  }

  lemma {:induction false} StoredReplay(s: Client, more: seq<Event>, d: Call, q: Pair)
    requires Stored(s, d, q, false)
    requires forall i :: 0 <= i < |more| && WritesStore(more[i]) ==> more[i] == Save(d)
    ensures Stored(Replay(s, more), d, q, Saved(s, more, d))
    decreases |more|
  {
    if more != [] {
      var n := |more| - 1;
      StoredReplay(s, more[..n], d, q);
      assert more == more[..n] + [more[n]];
      ReplayAppend(s, more[..n], more[n]);
      SavedAppend(s, more, d);
      StoredNext(Replay(s, more[..n]), more[n], d, q, Saved(s, more[..n], d));
    }
  }

  /** As long as nobody but `d`, which is refreshing it, writes the stored session, it is `q` until d saves. */
  lemma StoredUntilSaved(events: seq<Event>, s: Client, d: Call, q: Pair, more: seq<Event>)
    requires s == Replay(Fresh(), events) && Refreshing(s, d, q)
    requires forall i :: 0 <= i < |more| && WritesStore(more[i]) ==> more[i] == Save(d)
    ensures Replay(s, more).store == Some(q) <==> !Saved(s, more, d)
  {
    ToldReplay(Fresh(), events);
    assert q in Around(s);
    StoredReplay(s, more, d, q);
  }

  // ----- When there is no task to join -----

  /** A step that sets the task to nil: a sign-out, or the finishing step of some call. */
  ghost predicate SetsNil(s: Client, e: Event) {
    e == SignOut || exists c :: Finishes(s, e, c)
  }

  ghost predicate SomeSetsNil(s: Client, more: seq<Event>) {
    exists i :: 0 <= i < |more| && SetsNil(Replay(s, more[..i]), more[i])
  }

  lemma TaskStaysNext(s: Client, e: Event)
    requires s.refreshTask.Some? && !SetsNil(s, e)
    ensures Next(s, e).refreshTask == s.refreshTask
  {
    if e.Resume? && e.i < |s.queue| && At(s, s.queue[e.i]) {
      assert !Finishes(s, e, s.queue[e.i]);
    } else if e.Unwind? {
      assert !Finishes(s, e, e.c);
    }
  }

  lemma {:induction false} TaskStays(s: Client, more: seq<Event>)
    requires s.refreshTask.Some? && !SomeSetsNil(s, more)
    ensures Replay(s, more).refreshTask == s.refreshTask
    decreases |more|
  {
    if more != [] {
      var n := |more| - 1;
      forall i | 0 <= i < n ensures !SetsNil(Replay(s, more[..n][..i]), more[..n][i]) {
        assert more[..n][..i] == more[..i];
      }
      TaskStays(s, more[..n]);
      assert more == more[..n] + [more[n]];
      ReplayAppend(s, more[..n], more[n]);
      TaskStaysNext(Replay(s, more[..n]), more[n]);
    }
  }

  /** Until then every call that resumes joins `d`: whoever later resumes alone does so after such a step. */
  lemma AloneOnlyAfterNil(s: Client, more: seq<Event>, d: Call, x: Call, q: Pair)
    requires Refreshing(s, d, q) && x != d && !(At(s, x) && s.calls[x] == Posting(q)) && ResumesWith(s, more, x, q)
    ensures SomeSetsNil(s, more)
  {
    var i :| 0 <= i < |more| && ResumesAlone(Replay(s, more[..i]), more[i], x, q) && Holds(s, more[..i], x, q);
    if SomeSetsNil(s, more[..i]) {
      PrefixSetsNil(s, more, i);
    } else {
      TaskStays(s, more[..i]);
    }
  }

  lemma PrefixSetsNil(s: Client, more: seq<Event>, i: nat)
    requires i <= |more| && SomeSetsNil(s, more[..i])
    ensures SomeSetsNil(s, more)
  {
    var j :| 0 <= j < i && SetsNil(Replay(s, more[..i][..j]), more[..i][j]);
    assert more[..i][..j] == more[..j];
  }

  // ----- One lost answer is enough -----

  /** Call 2 loads the session before call 1's committed refresh is lost, and resumes after call 1 has unwound. */
  function LostAnswer(): seq<Event> {
    [Login(0, "u", "f", 100, "", 0), SaveLogin(0), Begin(1)]
    + [Begin(2), Answer(1, true), Answer(2, true)]
    + [Load(1), Resume(0), Load(2)]
    + [ServerRefreshes(1, 101, "b", 0, false), Unwind(1), Resume(0)]
    + [ServerRefreshes(2, 102, "bb", 0, true), Unwind(2), ClearStored]
  }

  lemma FirstIsLost(s: Client)
    requires s.queue == [2] && s.refreshTask == Some(1) && s.accesses == {100} && Counts(s, 0, 0, 0)
    requires s.server.table == map["" := RefreshFamilies.NewToken("u", "f", RefreshFamilies.REFRESH_TTL)]
    requires s.server.tips == map["f" := ""]
    requires s.calls == map[0 := Finished, 1 := Posting(P0), 2 := Loaded(100, Some(P0))]
    ensures var s' := Next(s, ServerRefreshes(1, 101, "b", 0, false));
            && s'.queue == [2] && s'.refreshTask == Some(1) && s'.accesses == {100, 101}
            && s'.lost == 1 && Counts(s'.(lost := 0), 0, 0, 0)
            && s'.calls == map[0 := Finished, 1 := Rejected, 2 := Loaded(100, Some(P0))]
            && s'.server.table.Keys == {"", "b"}
            && s'.server.table[""] == RefreshFamilies.NewToken("u", "f",
                RefreshFamilies.REFRESH_TTL).(usedAt := Some(0))
  {
  }

  lemma SecondPostsAlone(s: Client)
    requires s.queue == [2] && s.refreshTask == Some(1)
    requires s.calls == map[0 := Finished, 1 := Rejected, 2 := Loaded(100, Some(P0))]
    ensures Next(Next(s, Unwind(1)), Resume(0))
            == s.(queue := [], refreshTask := Some(2), calls := map[0 := Finished, 1 := Failed, 2 := Posting(P0)])
  {
    var s1 := Next(s, Unwind(1));
    assert s1 == s.(refreshTask := None, calls := map[0 := Finished, 1 := Failed, 2 := Loaded(100, Some(P0))]);
    IosSingleFlight.Posts(s1, 2, P0);
  }

  lemma SecondIsReported(s: Client)
    requires s.lost == 1 && Counts(s.(lost := 0), 0, 0, 0) && s.accesses == {100, 101}
    requires 2 in s.calls && s.calls[2] == Posting(P0) && s.server.table.Keys == {"", "b"}
    requires s.server.table[""] == RefreshFamilies.NewToken("u", "f", RefreshFamilies.REFRESH_TTL).(usedAt := Some(0))
    ensures var s' := Replay(s, [ServerRefreshes(2, 102, "bb", 0, true), Unwind(2), ClearStored]);
            s'.lost == 1 && Counts(s'.(lost := 0), 1, 0, 0)
  {
    ReplayThree(s, ServerRefreshes(2, 102, "bb", 0, true), Unwind(2), ClearStored);
    ReportsUsed(s);
  }

  lemma ReportsUsed(s: Client)
    requires s.lost == 1 && Counts(s.(lost := 0), 0, 0, 0) && s.accesses == {100, 101}
    requires 2 in s.calls && s.calls[2] == Posting(P0) && s.server.table.Keys == {"", "b"}
    requires s.server.table[""] == RefreshFamilies.NewToken("u", "f", RefreshFamilies.REFRESH_TTL).(usedAt := Some(0))
    ensures var s' := Next(s, ServerRefreshes(2, 102, "bb", 0, true)); s'.lost == 1 && Counts(s'.(lost := 0), 1, 0, 0)
  {
  }

  /** In order, without a sign-out and without overtaking, one unanswered commit leads to a reuse report. */
  lemma LostAnswerCausesReuse()
    ensures var s := Replay(Fresh(), LostAnswer()); s.lost == 1 && Counts(s.(lost := 0), 1, 0, 0)
  {
    var e1 := [Login(0, "u", "f", 100, "", 0), SaveLogin(0), Begin(1)];
    var e2 := [Begin(2), Answer(1, true), Answer(2, true)];
    var e3 := [Load(1), Resume(0), Load(2)];
    var e4 := [ServerRefreshes(1, 101, "b", 0, false), Unwind(1), Resume(0)];
    var e5 := [ServerRefreshes(2, 102, "bb", 0, true), Unwind(2), ClearStored];
    ReplayConcat(Fresh(), e1 + e2 + e3 + e4, e5);
    ReplayConcat(Fresh(), e1 + e2 + e3, e4);
    ReplayConcat(Fresh(), e1 + e2, e3);
    ReplayConcat(Fresh(), e1, e2);
    SignsIn();
    var s3 := Replay(Fresh(), e1);
    BothRejected(s3);
    FirstPostsSecondLoads(Replay(s3, e2));
    var s9 := Replay(Replay(s3, e2), e3);
    ReplayThree(s9, e4[0], e4[1], e4[2]);
    FirstIsLost(s9);
    SecondPostsAlone(Next(s9, e4[0]));
    SecondIsReported(Replay(s9, e4));
  }
}
