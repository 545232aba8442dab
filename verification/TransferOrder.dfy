/**
 The transfer lifecycle under arbitrary overlap: exactly which steps take a status back or publish an
 event twice or out of order. Update and publish are two steps with nothing held between them.
 */
module TransferOrder {
  import opened Options
  import opened Transfers
  import opened TransferEvents

  /** A status stays or moves one step on: uploading, ready, completed. */
  ghost predicate Forward(transfers: map<string, Record>, transfers': map<string, Record>) {
    forall id :: id in transfers ==>
                   && id in transfers'
                   && Rank(transfers[id].transfer.status) <= Rank(transfers'[id].transfer.status)
                   && Rank(transfers'[id].transfer.status) <= Rank(transfers[id].transfer.status) + 1
  }

  /** After every step: statuses went forward, and the events of each transfer are distinct and in order. */
  ghost predicate LifecycleKept(sha: Hash, w: World, acts: seq<Action>)
    decreases |acts|
  {
    acts != [] ==>
      var w' := Step(sha, w, acts[0]);
      && Forward(w.transfers, w'.transfers) && AllFit(w'.transfers, w'.events)
      && LifecycleKept(sha, w', acts[1..])
  }

  /** A call that found its transfer uploading writes ready over completed. */
  predicate Reopens(w: World, a: Action) {
    && a.Continue? && a.progress.Commit? && a.c in w.calls && w.calls[a.c].MarkInspected?
    && var p := w.calls[a.c];
       && Find(w.transfers, p.user, p.t.id).Some?
       && Find(w.transfers, p.user, p.t.id).value.status.Completed?
  }

  predicate Publishes(w: World, a: Action) {
    a.Continue? && a.progress.Publish? && a.c in w.calls && w.calls[a.c].Updated?
  }

  /** The same event, or a later one of the same transfer, is already out. */
  predicate PublishesLate(w: World, a: Action) {
    && Publishes(w, a)
    && var t := w.calls[a.c].t;
       var out := EventsOf(w.events, t.id);
       EventFor(t) in out || (t.status.Ready? && CompletedEvent(t) in out)
  }

  predicate Harmful(w: World, a: Action) {
    Reopens(w, a) || PublishesLate(w, a)
  }

  ghost predicate NoneHarmful(sha: Hash, w: World, acts: seq<Action>)
    decreases |acts|
  {
    acts != [] ==> !Harmful(w, acts[0]) && NoneHarmful(sha, Step(sha, w, acts[0]), acts[1..])
  }

  // ----- What a run keeps that has kept the lifecycle so far -----

  /** The row is at least as far as the call knows. */
  predicate NotAhead(transfers: map<string, Record>, p: Phase) {
    (p.CompleteRead? || p.Updated?) && p.t.id in transfers ==>
      Rank(p.t.status) <= Rank(transfers[p.t.id].transfer.status)
  }

  ghost predicate CallsBehind(w: World) {
    forall c :: c in w.calls ==> NotAhead(w.transfers, w.calls[c])
  }

  ghost predicate OrderInv(sha: Hash, w: World) {
    PayloadInv(sha, w) && StatusInv(w) && CallsBehind(w) && AllFit(w.transfers, w.events)
  }

  lemma BehindKept(w: World, w': World)
    requires CallsBehind(w) && Forward(w.transfers, w'.transfers)
    requires forall c :: c in w.calls && Lifecycle(w.calls[c]) ==> w.calls[c].t.id in w.transfers
    requires forall c :: c in w'.calls ==>
               (c in w.calls && w'.calls[c] == w.calls[c]) || NotAhead(w'.transfers, w'.calls[c])
    ensures CallsBehind(w')
  {
    forall c | c in w'.calls ensures NotAhead(w'.transfers, w'.calls[c]) {
      if c in w.calls && w'.calls[c] == w.calls[c] {
        assert NotAhead(w.transfers, w.calls[c]);
      }
    }
  }

  lemma PhasesPlaced(sha: Hash, w: World)
    requires PhasesOk(sha, w)
    ensures forall c :: c in w.calls && Lifecycle(w.calls[c]) ==> w.calls[c].t.id in w.transfers
  {
    forall c | c in w.calls && Lifecycle(w.calls[c]) ensures w.calls[c].t.id in w.transfers {
      assert PhaseOk(sha, w.transfers, w.blobs, w.calls[c]);
    }
  }

  // ----- Commits -----

  ghost predicate Commits(w: World, c: Call) {
    && c in w.calls && (w.calls[c].MarkInspected? || w.calls[c].CompleteRead?)
    && Find(w.transfers, w.calls[c].user, w.calls[c].t.id).Some?
  }

  lemma CommitEvents(sha: Hash, w: World, c: Call, now: int)
    requires c in w.calls
    ensures ContinueStep(sha, w, c, Commit(now)).events == w.events
  {
  }

  /** The row before a commit, and the row it writes. */
  lemma CommitRow(sha: Hash, w: World, c: Call, now: int)
    requires OrderInv(sha, w) && Commits(w, c)
    ensures var p := w.calls[c];
            var t := Pending(p, now);
            && t.id == p.t.id && t.id in w.transfers
            && Find(w.transfers, p.user, t.id) == Some(w.transfers[t.id].transfer)
            && var row := PostgresUpdate(w.transfers[t.id], t);
               && ContinueStep(sha, w, c, Commit(now)).transfers == w.transfers[t.id := row]
               && ContinueStep(sha, w, c, Commit(now)).calls == w.calls[c := Updated(t)]
               && SameIdentity(row.transfer, w.transfers[t.id].transfer) && row.transfer.status == t.status
               && 1 <= Rank(w.transfers[t.id].transfer.status) <= 3
               && (if p.MarkInspected? then t.status.Ready? else t.status.Completed?)
               && (p.CompleteRead? ==> Rank(w.transfers[t.id].transfer.status) >= 2)
  {
    var p := w.calls[c];
    assert PhaseOk(sha, w.transfers, w.blobs, p);
    assert Admitted(p) && NotAhead(w.transfers, p);
    CommitEffect(sha, w, c, now);
  }

  lemma ForwardOne(transfers: map<string, Record>, id: string, r: Record)
    requires id in transfers
    ensures var rank := Rank(transfers[id].transfer.status);
            Forward(transfers, transfers[id := r]) <==> rank <= Rank(r.transfer.status) <= rank + 1
  {
    if Forward(transfers, transfers[id := r]) {
      assert transfers[id := r][id] == r;
    }
  }

  /** A commit goes forward unless it reopens. */
  lemma CommitForward(sha: Hash, w: World, c: Call, now: int)
    requires OrderInv(sha, w) && Commits(w, c)
    ensures Forward(w.transfers, ContinueStep(sha, w, c, Commit(now)).transfers)
            <==> !Reopens(w, Continue(c, Commit(now)))
  {
    CommitRow(sha, w, c, now);
    var t := Pending(w.calls[c], now);
    ForwardOne(w.transfers, t.id, PostgresUpdate(w.transfers[t.id], t));
  }

  /** And whatever is published still fits. */
  lemma CommitFitsOn(sha: Hash, w: World, c: Call, now: int)
    requires OrderInv(sha, w) && Commits(w, c) && !Reopens(w, Continue(c, Commit(now)))
    ensures var w' := ContinueStep(sha, w, c, Commit(now)); AllFit(w'.transfers, w'.events)
  {
    CommitRow(sha, w, c, now);
    CommitEvents(sha, w, c, now);
    var t := Pending(w.calls[c], now);
    CommitFits(w.transfers, w.events, t.id, PostgresUpdate(w.transfers[t.id], t));
  }

  lemma CommitBehind(sha: Hash, w: World, c: Call, now: int)
    requires OrderInv(sha, w) && Commits(w, c)
    requires Forward(w.transfers, ContinueStep(sha, w, c, Commit(now)).transfers)
    ensures CallsBehind(ContinueStep(sha, w, c, Commit(now)))
  {
    CommitRow(sha, w, c, now);
    PhasesPlaced(sha, w);
    BehindKept(w, ContinueStep(sha, w, c, Commit(now)));
  }

  lemma CommitFits(transfers: map<string, Record>, events: seq<Event>, id: string, r: Record)
    requires AllFit(transfers, events) && id in transfers
    requires var was, t := transfers[id].transfer, r.transfer;
             && was.id == t.id && was.source == t.source && was.destination == t.destination
             && Rank(was.status) <= Rank(t.status) && (t.status.Ready? || t.status.Completed?) && Rank(was.status) >= 1
    ensures AllFit(transfers[id := r], events)
  {
    assert EventsFit(EventsOf(events, id), transfers[id].transfer);
    assert EventsFit(EventsOf(events, id), r.transfer);
  }

  // ----- Publications -----

  lemma FitsIffNotLate(out: seq<Event>, t: Transfer, u: Transfer)
    requires EventsFit(out, u) && u.id == t.id && u.source == t.source && u.destination == t.destination
    requires t.status.Ready? || t.status.Completed?
    requires Rank(t.status) <= Rank(u.status)
    ensures EventsFit(out + [EventFor(t)], u)
            <==> !(EventFor(t) in out || (t.status.Ready? && CompletedEvent(t) in out))
  {
    var ready, completed, e := ReadyEvent(u), CompletedEvent(u), EventFor(t);
    assert READY_EVENT[9] != COMPLETED_EVENT[9];
    assert ready != completed && e == (if t.status.Ready? then ready else completed) && completed == CompletedEvent(t);
    if out == [] {
      assert out + [e] == [e];
    } else if out == [ready] {
      assert (out + [e])[1] == e && out + [completed] == [ready, completed];
    } else if out == [completed] {
      assert (out + [e])[0] == completed && |out + [e]| == 2;
    } else {
      assert out == [ready, completed] && out[1] == completed && out[0] == ready;
      assert |out + [e]| == 3;
    }
  }

  /** Everything but one transfer's events is as before. */
  lemma OthersFit(transfers: map<string, Record>, events: seq<Event>, e: Event)
    requires AllFit(transfers, events) && e.transferId in transfers
    ensures AllFit(transfers, events + [e])
            <==> EventsFit(EventsOf(events, e.transferId) + [e], transfers[e.transferId].transfer)
  {
    EventsAppend(events, e, e.transferId);
    forall id | id != e.transferId ensures EventsOf(events + [e], id) == EventsOf(events, id) {
      EventsAppend(events, e, id);
      assert EventsOf(events, id) + [] == EventsOf(events, id);
    }
  }

  lemma PublishEffect(sha: Hash, w: World, c: Call)
    requires c in w.calls && w.calls[c].Updated?
    ensures ContinueStep(sha, w, c, Publish)
            == w.(calls := w.calls[c := Finished(Answered)], events := w.events + [EventFor(w.calls[c].t)])
  {
  }

  lemma PublishOrdered(sha: Hash, w: World, c: Call)
    requires OrderInv(sha, w) && c in w.calls && w.calls[c].Updated?
    ensures AllFit(w.transfers, w.events + [EventFor(w.calls[c].t)]) <==> !PublishesLate(w, Continue(c, Publish))
  {
    OwnRowOf(sha, w, c);
    PublishFitsIff(w.transfers, w.events, w.calls[c].t);
  }

  lemma OwnRowOf(sha: Hash, w: World, c: Call)
    requires OrderInv(sha, w) && c in w.calls && w.calls[c].Updated?
    ensures var t := w.calls[c].t;
            t.id in w.transfers && SameIdentity(t, w.transfers[t.id].transfer)
            && Rank(t.status) <= Rank(w.transfers[t.id].transfer.status) && (t.status.Ready? || t.status.Completed?)
  {
    assert PhaseOk(sha, w.transfers, w.blobs, w.calls[c]);
    assert Admitted(w.calls[c]) && NotAhead(w.transfers, w.calls[c]);
  }

  lemma PublishFitsIff(transfers: map<string, Record>, events: seq<Event>, t: Transfer)
    requires AllFit(transfers, events) && t.id in transfers && SameIdentity(t, transfers[t.id].transfer)
    requires Rank(t.status) <= Rank(transfers[t.id].transfer.status) && (t.status.Ready? || t.status.Completed?)
    ensures var out := EventsOf(events, t.id);
            AllFit(transfers, events + [EventFor(t)])
            <==> !(EventFor(t) in out || (t.status.Ready? && CompletedEvent(t) in out))
  {
    assert EventsFit(EventsOf(events, t.id), transfers[t.id].transfer);
    OthersFit(transfers, events, EventFor(t));
    FitsIffNotLate(EventsOf(events, t.id), t, transfers[t.id].transfer);
  }

  lemma PublishBehind(sha: Hash, w: World, c: Call)
    requires PhasesOk(sha, w) && CallsBehind(w) && c in w.calls && w.calls[c].Updated?
    ensures CallsBehind(ContinueStep(sha, w, c, Publish))
  {
    PublishEffect(sha, w, c);
    PhasesPlaced(sha, w);
    BehindKept(w, ContinueStep(sha, w, c, Publish));
  }

  // ----- Every other step -----

  predicate Plainly(w: World, a: Action) {
    a.Continue? && a.c in w.calls && !(a.progress.Commit? && (w.calls[a.c].MarkInspected?
        || w.calls[a.c].CompleteRead?))
    && !Publishes(w, a)
  }

  /** It leaves rows and events alone, and no call learns of a status. */
  lemma PlainEffect(sha: Hash, w: World, c: Call, progress: Progress)
    requires c in w.calls && Plainly(w, Continue(c, progress))
    ensures var w' := ContinueStep(sha, w, c, progress);
            && w'.transfers == w.transfers && w'.events == w.events && w'.calls.Keys == w.calls.Keys
            && (w'.calls[c] == w.calls[c] || !(w'.calls[c].CompleteRead? || w'.calls[c].Updated?))
            && forall d :: d in w.calls && d != c ==> w'.calls[d] == w.calls[d]
  {
    OnlyCommitsChangeRows(sha, w, c, progress);
  }

  lemma PlainlyOrdered(sha: Hash, w: World, a: Action)
    requires OrderInv(sha, w) && Plainly(w, a)
    ensures var w' := Step(sha, w, a);
            Forward(w.transfers, w'.transfers) && AllFit(w'.transfers, w'.events) && CallsBehind(w')
  {
    PlainEffect(sha, w, a.c, a.progress);
    PhasesPlaced(sha, w);
    BehindKept(w, Step(sha, w, a));
  }

  lemma CreateOrdered(sha: Hash, w: World, user: string, t: Transfer)
    requires OrderInv(sha, w)
    ensures var w' := CreateStep(w, user, t);
            Forward(w.transfers, w'.transfers) && AllFit(w'.transfers, w'.events) && CallsBehind(w')
  {
    PhasesPlaced(sha, w);
    BehindKept(w, CreateStep(w, user, t));
  }

  lemma BeginOrdered(sha: Hash, w: World, c: Call, purpose: Purpose, user: string, id: string)
    requires OrderInv(sha, w) && c !in w.calls
    ensures var w' := Move(w, c, BeginPhase(w.transfers, purpose, user, id));
            Forward(w.transfers, w'.transfers) && AllFit(w'.transfers, w'.events) && CallsBehind(w')
  {
    var p := BeginPhase(w.transfers, purpose, user, id);
    assert !p.Finished? ==> p.t == w.transfers[id].transfer && p.t.id == id;
    PhasesPlaced(sha, w);
    BehindKept(w, Move(w, c, p));
  }

  /** What is to be shown of a step: whether it is harmful shows in rows and events. */
  ghost predicate Ordered(w: World, a: Action, w': World) {
    && (!Harmful(w, a) <==> Forward(w.transfers, w'.transfers) && AllFit(w'.transfers, w'.events))
    && (!Harmful(w, a) ==> CallsBehind(w'))
  }

  lemma PublicationOrdered(sha: Hash, w: World, a: Action)
    requires OrderInv(sha, w) && Publishes(w, a)
    ensures Ordered(w, a, Step(sha, w, a))
  {
    PublishOrdered(sha, w, a.c);
    PublishBehind(sha, w, a.c);
    PublishEffect(sha, w, a.c);
    assert a == Continue(a.c, Publish) && !Reopens(w, a);
    var w' := Step(sha, w, a);
    assert w'.transfers == w.transfers && w'.events == w.events + [EventFor(w.calls[a.c].t)];
  }

  lemma CommitOrdered(sha: Hash, w: World, a: Action)
    requires OrderInv(sha, w) && a.Continue? && a.progress.Commit? && Commits(w, a.c)
    ensures Ordered(w, a, Step(sha, w, a))
  {
    CommitForward(sha, w, a.c, a.progress.now);
    if !Harmful(w, a) {
      CommitFitsOn(sha, w, a.c, a.progress.now);
      CommitBehind(sha, w, a.c, a.progress.now);
    }
  }

  lemma RefusedOrdered(sha: Hash, w: World, a: Action)
    requires OrderInv(sha, w) && a.Continue? && a.c in w.calls && a.progress.Commit? && !Commits(w, a.c)
    requires w.calls[a.c].MarkInspected? || w.calls[a.c].CompleteRead?
    ensures Ordered(w, a, Step(sha, w, a))
  {
    assert PhaseOk(sha, w.transfers, w.blobs, w.calls[a.c]);
    CommitEffect(sha, w, a.c, a.progress.now);
    CommitEvents(sha, w, a.c, a.progress.now);
    PhasesPlaced(sha, w);
    BehindKept(w, Step(sha, w, a));
  }

  lemma ContinueOrdered(sha: Hash, w: World, a: Action)
    requires OrderInv(sha, w) && a.Continue? && a.c in w.calls
    ensures Ordered(w, a, Step(sha, w, a))
  {
    if Plainly(w, a) {
      PlainlyOrdered(sha, w, a);
    } else if Publishes(w, a) {
      PublicationOrdered(sha, w, a);
    } else if Commits(w, a.c) {
      CommitOrdered(sha, w, a);
    } else {
      RefusedOrdered(sha, w, a);
    }
  }

  lemma OrderStep(sha: Hash, w: World, a: Action)
    requires OrderInv(sha, w)
    ensures var w' := Step(sha, w, a);
            && (!Harmful(w, a) <==> Forward(w.transfers, w'.transfers) && AllFit(w'.transfers, w'.events))
            && (!Harmful(w, a) ==> OrderInv(sha, w'))
  {
    PayloadStep(sha, w, a);
    StatusStep(sha, w, a);
    if Outside(a) {
      OutsideKeeps(sha, w, a);
      PhasesPlaced(sha, w);
      BehindKept(w, Step(sha, w, a));
    } else if a.Create? {
      CreateOrdered(sha, w, a.user, a.t);
    } else if a.Begin? {
      if a.c !in w.calls {
        BeginOrdered(sha, w, a.c, a.purpose, a.user, a.id);
      }
    } else if a.c in w.calls {
      ContinueOrdered(sha, w, a);
    }
  }

  lemma {:induction false} KeptIffNoneHarmful(sha: Hash, w: World, acts: seq<Action>)
    requires OrderInv(sha, w)
    ensures LifecycleKept(sha, w, acts) <==> NoneHarmful(sha, w, acts)
    decreases |acts|
  {
    if acts != [] {
      OrderStep(sha, w, acts[0]);
      if !Harmful(w, acts[0]) {
        KeptIffNoneHarmful(sha, Step(sha, w, acts[0]), acts[1..]);
      }
    }
  }

  /**
   In every run, however calls overlap: statuses only move forward and each transfer's ready and completed
   events are published at most once, in that order, if and only if no confirmation commits over a completed
   row, and no event is published after itself or after its successor.
   */
  lemma LifecycleKeptIffNoneHarmful(sha: Hash, acts: seq<Action>)
    ensures LifecycleKept(sha, Init(), acts) <==> NoneHarmful(sha, Init(), acts)
  {
    KeptIffNoneHarmful(sha, Init(), acts);
  }

  // ----- When every commit is the lifecycle's next step -----

  ghost predicate Advances(w: World, a: Action) {
    a.Continue? && a.progress.Commit? && Commits(w, a.c) ==>
      w.transfers[w.calls[a.c].t.id].transfer.status == w.calls[a.c].t.status
  }

  /** Every commit finds the status that its call read. */
  ghost predicate Advancing(sha: Hash, w: World, acts: seq<Action>)
    decreases |acts|
  {
    acts != [] ==> Advances(w, acts[0]) && Advancing(sha, Step(sha, w, acts[0]), acts[1..])
  }

  /** What a call is about to publish is not out yet, and no other call is about to publish the same. */
  ghost predicate Unpublished(w: World, c: Call, p: Phase) {
    p.Updated? ==>
      && EventFor(p.t) !in EventsOf(w.events, p.t.id)
      && forall d :: d in w.calls && d != c && w.calls[d].Updated? && w.calls[d].t.id == p.t.id ==>
                       w.calls[d].t.status != p.t.status
  }

  ghost predicate AllUnpublished(w: World) {
    forall c :: c in w.calls ==> Unpublished(w, c, w.calls[c])
  }

  lemma FitTells(out: seq<Event>, t: Transfer)
    requires EventsFit(out, t)
    ensures t.status.Uploading? ==> out == []
    ensures t.status.Ready? ==> CompletedEvent(t) !in out
  {
    assert READY_EVENT[9] != COMPLETED_EVENT[9];
  }

  lemma CommitUnpublished(sha: Hash, w: World, c: Call, now: int)
    requires OrderInv(sha, w) && AllUnpublished(w) && Commits(w, c) && Advances(w, Continue(c, Commit(now)))
    ensures AllUnpublished(ContinueStep(sha, w, c, Commit(now)))
  {
    CommitRow(sha, w, c, now);
    CommitEvents(sha, w, c, now);
    var p := w.calls[c];
    var t := Pending(p, now);
    var was := w.transfers[t.id].transfer;
    assert Admitted(p) && was.status == p.t.status && EventsFit(EventsOf(w.events, t.id), was);
    FitTells(EventsOf(w.events, t.id), was);
    assert EventFor(t) !in EventsOf(w.events, t.id);
    var w' := ContinueStep(sha, w, c, Commit(now));
    forall d | d in w.calls && d != c && w.calls[d].Updated? && w.calls[d].t.id == t.id
      ensures w.calls[d].t.status != t.status
    {
      assert NotAhead(w.transfers, w.calls[d]) && Rank(was.status) < Rank(t.status);
    }
    forall d | d in w'.calls ensures Unpublished(w', d, w'.calls[d]) {
      assert d != c ==> Unpublished(w, d, w.calls[d]);
    }
  }

  lemma PublishUnpublished(sha: Hash, w: World, c: Call)
    requires OrderInv(sha, w) && AllUnpublished(w) && c in w.calls && w.calls[c].Updated?
    ensures AllUnpublished(ContinueStep(sha, w, c, Publish))
  {
    PublishEffect(sha, w, c);
    OwnRowOf(sha, w, c);
    var t := w.calls[c].t;
    var w' := ContinueStep(sha, w, c, Publish);
    forall d | d in w'.calls && w'.calls[d].Updated? ensures Unpublished(w', d, w'.calls[d]) {
      assert Unpublished(w, d, w.calls[d]) && Unpublished(w, c, w.calls[c]);
      OwnRowOf(sha, w, d);
      EventsAppend(w.events, EventFor(t), w.calls[d].t.id);
      assert w.calls[d].t.id == t.id ==> EventFor(w.calls[d].t).name != EventFor(t).name by {
        assert READY_EVENT[9] != COMPLETED_EVENT[9];
      }
    }
  }

  lemma UnpublishedFramed(w: World, w': World)
    requires AllUnpublished(w) && w'.events == w.events
    requires forall c :: c in w'.calls && w'.calls[c].Updated? ==> c in w.calls && w'.calls[c] == w.calls[c]
    ensures AllUnpublished(w')
  {
    forall c | c in w'.calls && w'.calls[c].Updated? ensures Unpublished(w', c, w'.calls[c]) {
      assert Unpublished(w, c, w.calls[c]);
    }
  }

  lemma ContinueUnpublished(sha: Hash, w: World, a: Action)
    requires OrderInv(sha, w) && AllUnpublished(w) && Advances(w, a) && a.Continue? && a.c in w.calls
    ensures AllUnpublished(Step(sha, w, a))
  {
    if Plainly(w, a) {
      PlainEffect(sha, w, a.c, a.progress);
      UnpublishedFramed(w, Step(sha, w, a));
    } else if Publishes(w, a) {
      PublishUnpublished(sha, w, a.c);
    } else if Commits(w, a.c) {
      CommitUnpublished(sha, w, a.c, a.progress.now);
    } else {
      assert PhaseOk(sha, w.transfers, w.blobs, w.calls[a.c]);
      CommitEffect(sha, w, a.c, a.progress.now);
      CommitEvents(sha, w, a.c, a.progress.now);
      UnpublishedFramed(w, Step(sha, w, a));
    }
  }

  lemma UnpublishedStep(sha: Hash, w: World, a: Action)
    requires OrderInv(sha, w) && AllUnpublished(w) && Advances(w, a)
    ensures AllUnpublished(Step(sha, w, a))
  {
    if a.Continue? {
      if a.c in w.calls {
        ContinueUnpublished(sha, w, a);
      }
    } else if Outside(a) {
      OutsideKeeps(sha, w, a);
      UnpublishedFramed(w, Step(sha, w, a));
    } else {
      OpeningUnpublished(sha, w, a);
    }
  }

  lemma OpeningUnpublished(sha: Hash, w: World, a: Action)
    requires AllUnpublished(w) && (a.Create? || a.Begin?)
    ensures AllUnpublished(Step(sha, w, a))
  {
    assert a.Begin? ==> !BeginPhase(w.transfers, a.purpose, a.user, a.id).Updated?;
    UnpublishedFramed(w, Step(sha, w, a));
  }

  lemma {:induction false} UnpublishedRun(sha: Hash, w: World, acts: seq<Action>)
    requires OrderInv(sha, w) && AllUnpublished(w) && LifecycleKept(sha, w, acts) && Advancing(sha, w, acts)
    ensures OrderInv(sha, Run(sha, w, acts)) && AllUnpublished(Run(sha, w, acts))
    decreases |acts|
  {
    if acts != [] {
      OrderStep(sha, w, acts[0]);
      UnpublishedStep(sha, w, acts[0]);
      UnpublishedRun(sha, Step(sha, w, acts[0]), acts[1..]);
    }
  }

  lemma OnlyOvertakenIsLate(sha: Hash, w: World, c: Call)
    requires OrderInv(sha, w) && AllUnpublished(w) && c in w.calls && w.calls[c].Updated?
    ensures var t := w.calls[c].t;
            AllFit(w.transfers, w.events + [EventFor(t)])
            <==> !(t.status.Ready? && CompletedEvent(t) in EventsOf(w.events, t.id))
  {
    assert Unpublished(w, c, w.calls[c]);
    OwnRowOf(sha, w, c);
    PublishFitsIff(w.transfers, w.events, w.calls[c].t);
  }

  /** The publication keeps the events of every transfer distinct and in order. */
  ghost predicate KeepsEvents(sha: Hash, w: World, c: Call) {
    var w' := Step(sha, w, Continue(c, Publish));
    AllFit(w'.transfers, w'.events)
  }

  lemma KeepsEventsIff(sha: Hash, w: World, c: Call)
    requires OrderInv(sha, w) && AllUnpublished(w) && c in w.calls && w.calls[c].Updated?
    ensures var t := w.calls[c].t;
            KeepsEvents(sha, w, c) <==> !(t.status.Ready? && CompletedEvent(t) in EventsOf(w.events, t.id))
  {
    OnlyOvertakenIsLate(sha, w, c);
    PublishEffect(sha, w, c);
  }

  /**
   Even when every commit is the lifecycle's next step, events can come out of order. In such a run that has
   kept them so far, a publication keeps them if and only if it is not the ready event of a transfer whose
   completed event is already out.
   */
  lemma PublishKeepsIffNotOvertaken(sha: Hash, acts: seq<Action>, w: World, c: Call)
    requires w == Run(sha, Init(), acts) && LifecycleKept(sha, Init(), acts) && Advancing(sha, Init(), acts)
    requires c in w.calls && w.calls[c].Updated?
    ensures var t := w.calls[c].t;
            KeepsEvents(sha, w, c) <==> !(t.status.Ready? && CompletedEvent(t) in EventsOf(w.events, t.id))
  {
    UnpublishedRun(sha, Init(), acts);
    KeepsEventsIff(sha, w, c);
  }

  // ----- Such a run -----

  /** The confirmation commits; before it publishes, the transfer is completed, and that is published first. */
  function Overtaking(): seq<Action> {
    [Begin(1, Mark, "u", "t"), Continue(1, Inspect), Continue(1, Commit(1))]
    + [Begin(3, Complete, "u", "t"), Continue(3, Commit(2)), Continue(3, Publish)]
  }

  lemma {:induction false} AdvancingConcat(sha: Hash, w: World, acts: seq<Action>, more: seq<Action>)
    requires Advancing(sha, w, acts) && Advancing(sha, Run(sha, w, acts), more)
    ensures Advancing(sha, w, acts + more)
    decreases |acts|
  {
    if acts == [] {
      assert acts + more == more;
    } else {
      assert (acts + more)[1..] == acts[1..] + more;
      AdvancingConcat(sha, Step(sha, w, acts[0]), acts[1..], more);
    }
  }

  lemma AdvancingThree(sha: Hash, w: World, a: Action, b: Action, c: Action)
    requires var w1 := Step(sha, w, a); Advances(w, a) && Advances(w1, b) && Advances(Step(sha, w1, b), c)
    ensures Advancing(sha, w, [a, b, c])
  {
    assert [a, b, c][1..] == [b, c] && [b, c][1..] == [c];
    var w1 := Step(sha, w, a);
    assert Advancing(sha, Step(sha, Step(sha, w1, b), c), []);
    assert Advancing(sha, Step(sha, w1, b), [c]);
    assert Advancing(sha, w1, [b, c]);
  }

  lemma Confirms(sha: Hash, w: World)
    requires NoteWorld(sha, w, Uploading, 0) && w.calls == map[0 := Finished(Answered)] && w.events == []
    ensures var acts := [Begin(1, Mark, "u", "t"), Continue(1, Inspect), Continue(1, Commit(1))];
            var w' := Run(sha, w, acts);
            && Advancing(sha, w, acts) && NoteWorld(sha, w', Ready, 1) && w'.events == []
            && w'.calls == map[0 := Finished(Answered), 1 := Updated(Note(sha, Ready, 1))]
  {
    var a, b, c := Begin(1, Mark, "u", "t"), Continue(1, Inspect), Continue(1, Commit(1));
    RunThree(sha, w, a, b, c);
    MarksNote(sha, w, 1);
    var w1 := Step(sha, w, a);
    InspectsNote(sha, w1, 1);
    var w2 := Step(sha, w1, b);
    CommitsNote(sha, w2, 1, Uploading, 0, 1);
    AdvancingThree(sha, w, a, b, c);
  }

  lemma Overtakes(sha: Hash, w: World)
    requires NoteWorld(sha, w, Ready, 1) && w.events == []
    requires w.calls == map[0 := Finished(Answered), 1 := Updated(Note(sha, Ready, 1))]
    ensures var acts := [Begin(3, Complete, "u", "t"), Continue(3, Commit(2)), Continue(3, Publish)];
            var w' := Run(sha, w, acts);
            && Advancing(sha, w, acts) && NoteWorld(sha, w', Completed, 2)
            && w'.events == [CompletedEvent(Note(sha, Ready, 1))]
            && 1 in w'.calls && w'.calls[1] == Updated(Note(sha, Ready, 1))
  {
    var a, b, c := Begin(3, Complete, "u", "t"), Continue(3, Commit(2)), Continue(3, Publish);
    RunThree(sha, w, a, b, c);
    StartsCompletion(sha, w);
    var w1 := Step(sha, w, a);
    CommitsNote(sha, w1, 3, Ready, 1, 2);
    var w2 := Step(sha, w1, b);
    PublishesNote(sha, w2, 3, Completed, 2);
    AdvancingThree(sha, w, a, b, c);
  }

  lemma StartsCompletion(sha: Hash, w: World)
    requires NoteWorld(sha, w, Ready, 1) && 3 !in w.calls
    ensures Step(sha, w, Begin(3, Complete, "u", "t"))
            == w.(calls := w.calls[3 := CompleteRead("u", Note(sha, Ready, 1))])
  {
    assert Find(w.transfers, "u", "t") == Some(Note(sha, Ready, 1));
  }

  lemma SetupAdvances(sha: Hash)
    requires Checksum(sha([]))
    ensures var w := Run(sha, Init(), Setup(sha));
            Advancing(sha, Init(), Setup(sha)) && NoteWorld(sha, w, Uploading, 0)
            && w.calls == map[0 := Finished(Answered)] && w.events == []
  {
    var s1 := [AddDevice("a", "u", None), AddDevice("b", "u", None), Transfers.Create("u", Note(sha, Created, 0))];
    var s2 := [Begin(0, Upload, "u", "t"), Continue(0, ReadBody([])), Continue(0, StoreBlob)];
    RunConcat(sha, Init(), s1, s2);
    CreatesNote(sha);
    UploadsNote(sha, Run(sha, Init(), s1));
    AdvancingThree(sha, Init(), s1[0], s1[1], s1[2]);
    AdvancingThree(sha, Run(sha, Init(), s1), s2[0], s2[1], s2[2]);
    AdvancingConcat(sha, Init(), s1, s2);
  }

  /** Every commit advances, yet the ready event follows the completed one. */
  lemma ReadyAfterCompleted(sha: Hash)
    requires Checksum(sha([]))
    ensures var acts := Setup(sha) + Overtaking();
            var w := Step(sha, Run(sha, Init(), acts), Continue(1, Publish));
            && Advancing(sha, Init(), acts) && NoteWorld(sha, w, Completed, 2)
            && w.events == [CompletedEvent(Note(sha, Ready, 1)), ReadyEvent(Note(sha, Ready, 1))]
  {
    var o1 := [Begin(1, Mark, "u", "t"), Continue(1, Inspect), Continue(1, Commit(1))];
    var o2 := [Begin(3, Complete, "u", "t"), Continue(3, Commit(2)), Continue(3, Publish)];
    SetupAdvances(sha);
    var w := Run(sha, Init(), Setup(sha));
    Confirms(sha, w);
    var w1 := Run(sha, w, o1);
    Overtakes(sha, w1);
    RunConcat(sha, w, o1, o2);
    AdvancingConcat(sha, w, o1, o2);
    RunConcat(sha, Init(), Setup(sha), o1 + o2);
    AdvancingConcat(sha, Init(), Setup(sha), o1 + o2);
    PublishEffect(sha, Run(sha, w1, o2), 1);
  }
}
