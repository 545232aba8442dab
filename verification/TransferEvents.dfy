/**
 What follows from a status change: wake-up rows in the outbox, lifecycle order and published
 events. Wake-ups are exact in every interleaving; order needs calls on one transfer not to overlap.
 */
module TransferEvents {
  import opened Options
  import opened Transfers
  import Outbox

  // ----- Wake-ups, in every interleaving -----

  predicate SameRowKey(r: Outbox.Row, r': Outbox.Row) {
    r.deviceId == r'.deviceId && r.transferId == r'.transferId && r.eventType == r'.eventType
  }

  /** Workers change delivery columns only. */
  lemma WorkerKeepsKeys(o: Outbox.State, a: Outbox.Action)
    requires !a.Enqueue?
    ensures var o' := Outbox.Step(o, a);
            |o'.rows| == |o.rows| && forall i :: 0 <= i < |o.rows| ==> SameRowKey(o.rows[i], o'.rows[i])
  {
  }

  ghost predicate KeysUnique(rows: seq<Outbox.Row>) {
    forall i, j :: 0 <= i < j < |rows| ==> !SameRowKey(rows[i], rows[j])
  }

  /** Every row is the wake-up of a transfer that became ready, addressed to its destination. */
  ghost predicate RowsJustified(rows: seq<Outbox.Row>, transfers: map<string, Record>, firstReady: map<string, bool>) {
    forall i :: 0 <= i < |rows| ==>
                  && rows[i].transferId in transfers && rows[i].transferId in firstReady
                  && SameKey(rows[i], transfers[rows[i].transferId].transfer)
  }

  ghost predicate WokenOnReady(o: Outbox.State, transfers: map<string, Record>, firstReady: map<string, bool>) {
    && (forall id :: id in firstReady ==> id in transfers)
    && (forall id :: id in firstReady && firstReady[id] ==> Enqueued(o, transfers[id].transfer))
    && (forall id :: id in transfers && Downloadable(transfers[id].transfer.status) ==> id in firstReady)
  }

  ghost predicate WakeInv(w: World) {
    && KeysUnique(w.outbox.rows)
    && RowsJustified(w.outbox.rows, w.transfers, w.firstReady)
    && WokenOnReady(w.outbox, w.transfers, w.firstReady)
  }

  /** Only the keys of the rows and the rows' destinations matter. */
  lemma WakeFramed(w: World, w': World)
    requires WakeInv(w) && RowsPlain(w.transfers) && RowsPlain(w'.transfers) && RowsKept(w.transfers, w'.transfers)
    requires |w'.outbox.rows| == |w.outbox.rows|
    requires forall i :: 0 <= i < |w.outbox.rows| ==> SameRowKey(w.outbox.rows[i], w'.outbox.rows[i])
    requires w'.firstReady == w.firstReady
    requires forall id :: id in w'.transfers && Downloadable(w'.transfers[id].transfer.status) ==> id in w.firstReady
    ensures WakeInv(w')
  {
    forall id | id in w'.firstReady && w'.firstReady[id] ensures Enqueued(w'.outbox, w'.transfers[id].transfer) {
      var i :| 0 <= i < |w.outbox.rows| && SameKey(w.outbox.rows[i], w.transfers[id].transfer);
      assert SameKey(w'.outbox.rows[i], w'.transfers[id].transfer);
    }
  }

  /** The trigger's insert: at most one new row, and one if the destination has a token. */
  lemma TriggerWakes(w: World, was: Transfer, t: Transfer)
    requires KeysUnique(w.outbox.rows)
    ensures var o := Trigger(w, was, t);
            && KeysUnique(o.rows)
            && w.outbox.rows <= o.rows
            && |o.rows| <= |w.outbox.rows| + 1
            && (|o.rows| > |w.outbox.rows| ==> t.status.Ready? && SameKey(o.rows[|w.outbox.rows|], t))
            && (t.status.Ready? && !was.status.Ready? && HasToken(w.devices, t.destination) ==> Enqueued(o, t))
  {
    var o := Trigger(w, was, t);
    if o != w.outbox {
      assert SameKey(o.rows[|w.outbox.rows|], t);
      forall i | 0 <= i < |w.outbox.rows| ensures !SameRowKey(o.rows[i], o.rows[|w.outbox.rows|]) {
        assert o.rows[i] == w.outbox.rows[i] && !SameKey(w.outbox.rows[i], t);
      }
    }
  }

  lemma EnqueuedGrows(o: Outbox.State, o': Outbox.State, t: Transfer)
    requires Enqueued(o, t) && o.rows <= o'.rows
    ensures Enqueued(o', t)
  {
    var i :| 0 <= i < |o.rows| && SameKey(o.rows[i], t);
    assert o'.rows[i] == o.rows[i];
  }

  lemma UpdateJustified(w: World, t: Transfer)
    requires WakeInv(w) && RowsPlain(w.transfers) && SnapshotOf(w.transfers, t)
    ensures var w' := UpdateRow(w, t); RowsJustified(w'.outbox.rows, w'.transfers, w'.firstReady)
  {
    var w' := UpdateRow(w, t);
    TriggerWakes(w, w.transfers[t.id].transfer, w'.transfers[t.id].transfer);
    forall i | 0 <= i < |w'.outbox.rows|
      ensures w'.outbox.rows[i].transferId in w'.transfers && w'.outbox.rows[i].transferId in w'.firstReady
      ensures SameKey(w'.outbox.rows[i], w'.transfers[w'.outbox.rows[i].transferId].transfer)
    {
      if i < |w.outbox.rows| {
        assert w'.outbox.rows[i] == w.outbox.rows[i];
      }
    }
  }

  lemma UpdateWakes(w: World, t: Transfer)
    requires WakeInv(w) && RowsPlain(w.transfers) && SnapshotOf(w.transfers, t)
    requires t.status.Ready? || t.status.Completed?
    requires t.id in w.firstReady || t.status.Ready?
    ensures WakeInv(UpdateRow(w, t))
  {
    var w' := UpdateRow(w, t);
    var was := w.transfers[t.id].transfer;
    TriggerWakes(w, was, w'.transfers[t.id].transfer);
    UpdateJustified(w, t);
    forall id | id in w'.firstReady && w'.firstReady[id] ensures Enqueued(w'.outbox, w'.transfers[id].transfer) {
      if id in w.firstReady {
        EnqueuedGrows(w.outbox, w'.outbox, w.transfers[id].transfer);
        var i :| 0 <= i < |w'.outbox.rows| && SameKey(w'.outbox.rows[i], w.transfers[id].transfer);
        assert SameKey(w'.outbox.rows[i], w'.transfers[id].transfer);
      } else {
        assert id == t.id && !was.status.Ready?;
      }
    }
  }

  ghost predicate CompletersReady(calls: map<Call, Phase>, firstReady: map<string, bool>) {
    forall c :: c in calls && calls[c].CompleteRead? ==> calls[c].t.id in firstReady
  }

  ghost predicate Inv(sha: Hash, w: World) {
    PayloadInv(sha, w) && WakeInv(w) && CompletersReady(w.calls, w.firstReady)
  }

  lemma CommitWakes(sha: Hash, w: World, c: Call, now: int)
    requires Inv(sha, w) && c in w.calls && (w.calls[c].MarkInspected? || w.calls[c].CompleteRead?)
    ensures var w' := ContinueStep(sha, w, c, Commit(now)); WakeInv(w') && CompletersReady(w'.calls, w'.firstReady)
  {
    var p := w.calls[c];
    var t := Pending(p, now);
    assert PhaseOk(sha, w.transfers, w.blobs, p);
    if Find(w.transfers, p.user, t.id).Some? {
      UpdateWakes(w, t);
    }
  }

  lemma CreateWakes(sha: Hash, w: World, user: string, t: Transfer)
    requires Inv(sha, w)
    ensures WakeInv(CreateStep(w, user, t))
  {
    CreateKeeps(sha, w, user, t);
    WakeFramed(w, CreateStep(w, user, t));
  }

  lemma BeginWakes(sha: Hash, w: World, c: Call, purpose: Purpose, user: string, id: string)
    requires Inv(sha, w)
    ensures CompletersReady(w.calls[c := BeginPhase(w.transfers, purpose, user, id)], w.firstReady)
  {
  }

  lemma OutsideWakes(sha: Hash, w: World, a: Action)
    requires Inv(sha, w) && Outside(a)
    ensures WakeInv(Step(sha, w, a)) && CompletersReady(Step(sha, w, a).calls, Step(sha, w, a).firstReady)
  {
    OutsideKeeps(sha, w, a);
    if a.Worker? && !a.action.Enqueue? {
      WorkerKeepsKeys(w.outbox, a.action);
    }
    WakeFramed(w, Step(sha, w, a));
  }

  lemma ContinueWakes(sha: Hash, w: World, c: Call, progress: Progress)
    requires Inv(sha, w) && c in w.calls
    ensures var w' := ContinueStep(sha, w, c, progress); WakeInv(w') && CompletersReady(w'.calls, w'.firstReady)
  {
    if progress.Commit? {
      if w.calls[c].MarkInspected? || w.calls[c].CompleteRead? {
        CommitWakes(sha, w, c, progress.now);
      }
    }
  }

  lemma InvStep(sha: Hash, w: World, a: Action)
    requires Inv(sha, w)
    ensures Inv(sha, Step(sha, w, a))
  {
    PayloadStep(sha, w, a);
    if Outside(a) {
      OutsideWakes(sha, w, a);
    } else if a.Create? {
      CreateWakes(sha, w, a.user, a.t);
    } else if a.Begin? {
      BeginWakes(sha, w, a.c, a.purpose, a.user, a.id);
    } else if a.c in w.calls {
      ContinueWakes(sha, w, a.c, a.progress);
    }
  }

  lemma {:induction false} InvRun(sha: Hash, w: World, acts: seq<Action>)
    requires Inv(sha, w)
    ensures Inv(sha, Run(sha, w, acts))
    decreases |acts|
  {
    if acts != [] {
      InvStep(sha, w, acts[0]);
      InvRun(sha, Step(sha, w, acts[0]), acts[1..]);
    }
  }

  function WakeUps(rows: seq<Outbox.Row>, id: string): set<nat> {
    set i: nat | i < |rows| && rows[i].transferId == id
  }

  /**
   Under every interleaving, stale writes included, a transfer has no wake-up row before it is ever
   ready, never more than one, and exactly one if its destination had a token when it first became
   ready. The row is addressed to the destination.
   */
  lemma WakeUpAtMostOnce(sha: Hash, acts: seq<Action>, id: string)
    ensures var w := Run(sha, Init(), acts);
            && |WakeUps(w.outbox.rows, id)| <= 1
            && (id !in w.firstReady ==> |WakeUps(w.outbox.rows, id)| == 0)
            && (id in w.firstReady && w.firstReady[id] ==> |WakeUps(w.outbox.rows, id)| == 1)
            && (id in w.transfers && w.transfers[id].transfer.status in {Ready, Downloading, Completed} ==>
                  id in w.firstReady)
            && forall i :: i in WakeUps(w.outbox.rows, id) ==>
                             && id in w.transfers && w.outbox.rows[i].eventType == "transfer.ready"
                             && w.outbox.rows[i].deviceId == w.transfers[id].transfer.destination
  {
    InvRun(sha, Init(), acts);
    var w := Run(sha, Init(), acts);
    var found := WakeUps(w.outbox.rows, id);
    forall i, j | i in found && j in found ensures i == j {
      assert SameKey(w.outbox.rows[i], w.transfers[id].transfer);
      assert SameKey(w.outbox.rows[j], w.transfers[id].transfer);
    }
    AtMostOne(found);
    if id in w.firstReady && w.firstReady[id] {
      var i :| 0 <= i < |w.outbox.rows| && SameKey(w.outbox.rows[i], w.transfers[id].transfer);
      assert i in found;
    }
  }

  lemma AtMostOne(s: set<nat>)
    requires forall i, j :: i in s && j in s ==> i == j
    ensures |s| <= 1
  {
    if s != {} {
      var i :| i in s;
      assert s == {i};
    }
  }

  lemma OnlyCommitsChangeRows(sha: Hash, w: World, c: Call, progress: Progress)
    requires c in w.calls
    requires !(progress.Commit? && (w.calls[c].MarkInspected? || w.calls[c].CompleteRead?))
    ensures var w' := ContinueStep(sha, w, c, progress);
            w'.transfers == w.transfers && w'.firstReady == w.firstReady
  {
  }

  /** `firstReady` changes only to record a transfer that has just turned ready. */
  ghost predicate FirstRecorded(w: World, w': World, id: string) {
    && (id in w.firstReady ==> id in w'.firstReady && w'.firstReady[id] == w.firstReady[id])
    && (id !in w.firstReady && id in w'.firstReady ==>
          && id in w'.transfers && w'.transfers[id].transfer.status.Ready?
          && var device := w'.transfers[id].transfer.destination;
             w'.firstReady[id]
             == (device in w.devices && w.devices[device].pushToken.Some? && |w.devices[device].pushToken.value| > 0))
  }

  lemma CommitRecords(sha: Hash, w: World, c: Call, now: int, id: string)
    requires Inv(sha, w) && c in w.calls && (w.calls[c].MarkInspected? || w.calls[c].CompleteRead?)
    ensures FirstRecorded(w, ContinueStep(sha, w, c, Commit(now)), id)
  {
    assert PhaseOk(sha, w.transfers, w.blobs, w.calls[c]);
  }

  /**
   The history is what it says: it is set when a transfer first turns ready, to whether a token was there, for
   good.
   */
  lemma FirstReadyIsFirst(sha: Hash, acts: seq<Action>, a: Action, id: string)
    ensures var w := Run(sha, Init(), acts); FirstRecorded(w, Step(sha, w, a), id)
  {
    InvRun(sha, Init(), acts);
    var w := Run(sha, Init(), acts);
    if Outside(a) {
      OutsideKeeps(sha, w, a);
    } else if a.Continue? && a.c in w.calls {
      assert Step(sha, w, a) == ContinueStep(sha, w, a.c, a.progress);
      if a.progress.Commit? && (w.calls[a.c].MarkInspected? || w.calls[a.c].CompleteRead?) {
        CommitRecords(sha, w, a.c, a.progress.now, id);
      } else {
        OnlyCommitsChangeRows(sha, w, a.c, a.progress);
      }
    } else {
      assert Step(sha, w, a).firstReady == w.firstReady;
    }
  }

  // ----- Lifecycle order and events, when calls on one transfer do not overlap -----

  predicate Lifecycle(p: Phase) {
    p.MarkRead? || p.MarkInspected? || p.CompleteRead? || p.Updated?
  }

  /** A lifecycle call starts only when no other one on the same transfer is open. */
  ghost predicate NoOverlap(w: World, a: Action) {
    a.Begin? && !a.purpose.Upload? ==>
      forall d :: d in w.calls && Lifecycle(w.calls[d]) ==> w.calls[d].t.id != a.id
  }

  ghost predicate Serialized(sha: Hash, w: World, acts: seq<Action>)
    decreases |acts|
  {
    acts != [] ==> NoOverlap(w, acts[0]) && Serialized(sha, Step(sha, w, acts[0]), acts[1..])
  }

  function EventsOf(events: seq<Event>, id: string): seq<Event> {
    if events == [] then []
    else
      var last := events[|events| - 1];
      EventsOf(events[..|events| - 1], id) + (if last.transferId == id then [last] else [])
  }

  function ReadyEvent(t: Transfer): Event {
    Event(READY_EVENT, t.id, t.destination)
  }

  function CompletedEvent(t: Transfer): Event {
    Event(COMPLETED_EVENT, t.id, t.source)
  }

  /** The events published so far fit the status; an abandoned call may have published nothing. */
  predicate EventsFit(events: seq<Event>, t: Transfer) {
    match t.status
    case Uploading => events == []
    case Ready => events == [] || events == [ReadyEvent(t)]
    case Completed =>
      || events == [] || events == [ReadyEvent(t)] || events == [CompletedEvent(t)]
      || events == [ReadyEvent(t), CompletedEvent(t)]
    case _ => false
  }

  /** What may have been published before the event of `t`'s own status. */
  predicate EventsBefore(events: seq<Event>, t: Transfer) {
    events == [] || (t.status.Completed? && events == [ReadyEvent(t)])
  }

  predicate StatusFits(transfers: map<string, Record>, events: seq<Event>, p: Phase)
    requires Lifecycle(p) ==> p.t.id in transfers
  {
    Lifecycle(p) ==>
      var t := transfers[p.t.id].transfer;
      && (p.MarkRead? || p.MarkInspected? ==> t.status.Uploading?)
      && (p.CompleteRead? ==> t.status.Ready?)
      && (p.Updated? ==> (t.status.Ready? || t.status.Completed?) && p.t.status == t.status
                         && EventsBefore(EventsOf(events, p.t.id), t))
  }

  ghost predicate OneOpen(calls: map<Call, Phase>) {
    forall c, d :: c in calls && d in calls && c != d && Lifecycle(calls[c]) && Lifecycle(calls[d]) ==>
                     calls[c].t.id != calls[d].t.id
  }

  ghost predicate OpenFit(transfers: map<string, Record>, events: seq<Event>, calls: map<Call, Phase>) {
    forall c :: c in calls && Lifecycle(calls[c]) ==>
                  calls[c].t.id in transfers && StatusFits(transfers, events, calls[c])
  }

  ghost predicate AllFit(transfers: map<string, Record>, events: seq<Event>) {
    forall id :: if id in transfers then EventsFit(EventsOf(events, id), transfers[id].transfer)
                 else EventsOf(events, id) == []
  }

  ghost predicate LifeInv(w: World) {
    OneOpen(w.calls) && OpenFit(w.transfers, w.events, w.calls) && AllFit(w.transfers, w.events)
  }

  lemma LifeMove(w: World, c: Call, p: Phase)
    requires LifeInv(w)
    requires Lifecycle(p) ==> p.t.id in w.transfers && StatusFits(w.transfers, w.events, p)
    requires Lifecycle(p) ==>
               forall d :: d in w.calls && d != c && Lifecycle(w.calls[d]) ==> w.calls[d].t.id != p.t.id
    ensures LifeInv(Move(w, c, p))
  {
  }

  lemma LifeCommit(sha: Hash, w: World, c: Call, now: int)
    requires Inv(sha, w) && LifeInv(w) && c in w.calls && (w.calls[c].MarkInspected? || w.calls[c].CompleteRead?)
    ensures LifeInv(ContinueStep(sha, w, c, Commit(now)))
  {
    var p := w.calls[c];
    var t := Pending(p, now);
    assert PhaseOk(sha, w.transfers, w.blobs, p);
    if Find(w.transfers, p.user, t.id).None? {
      LifeMove(w, c, Finished(NotFound));
    } else {
      LifeUpdate(w, c, t);
    }
  }

  lemma LifeUpdate(w: World, c: Call, t: Transfer)
    requires LifeInv(w) && c in w.calls && Lifecycle(w.calls[c]) && w.calls[c].t.id == t.id
    requires SnapshotOf(w.transfers, t)
    requires if w.calls[c].CompleteRead? then t.status.Completed? else w.calls[c].MarkInspected? && t.status.Ready?
    ensures LifeInv(Move(UpdateRow(w, t), c, Updated(t)))
  {
    var w' := Move(UpdateRow(w, t), c, Updated(t));
    var was, now := w.transfers[t.id].transfer, w'.transfers[t.id].transfer;
    assert EventsFit(EventsOf(w.events, t.id), was);
    assert EventsBefore(EventsOf(w.events, t.id), now) && EventsFit(EventsOf(w.events, t.id), now);
    forall d | d in w'.calls && d != c && Lifecycle(w'.calls[d]) ensures w'.calls[d].t.id != t.id {
    }
    assert AllFit(w'.transfers, w'.events);
  }

  lemma EventsAppend(events: seq<Event>, e: Event, id: string)
    ensures EventsOf(events + [e], id) == EventsOf(events, id) + (if id == e.transferId then [e] else [])
  {
    assert (events + [e])[..|events|] == events;
  }

  /** Publishing the event of the row's own status keeps every transfer's events in order. */
  lemma PublishFits(transfers: map<string, Record>, events: seq<Event>, t: Transfer)
    requires AllFit(transfers, events) && t.id in transfers
    requires var u := transfers[t.id].transfer;
             && u.id == t.id && u.source == t.source && u.destination == t.destination && u.status == t.status
             && (u.status.Ready? || u.status.Completed?) && EventsBefore(EventsOf(events, t.id), u)
    ensures AllFit(transfers, events + [EventFor(t)])
  {
    forall id
      ensures if id in transfers then EventsFit(EventsOf(events + [EventFor(t)], id), transfers[id].transfer)
              else EventsOf(events + [EventFor(t)], id) == []
    {
      EventsAppend(events, EventFor(t), id);
      assert if id in transfers then EventsFit(EventsOf(events, id), transfers[id].transfer)
             else EventsOf(events, id) == [];
    }
  }

  lemma PublishOthers(w: World, c: Call)
    requires LifeInv(w) && c in w.calls && w.calls[c].Updated?
    ensures OpenFit(w.transfers, w.events + [EventFor(w.calls[c].t)], w.calls[c := Finished(Answered)])
    ensures OneOpen(w.calls[c := Finished(Answered)])
  {
    var e := EventFor(w.calls[c].t);
    forall d | d in w.calls && d != c && Lifecycle(w.calls[d])
      ensures StatusFits(w.transfers, w.events + [e], w.calls[d])
    {
      EventsAppend(w.events, e, w.calls[d].t.id);
      assert StatusFits(w.transfers, w.events, w.calls[d]);
    }
  }

  lemma LifePublish(sha: Hash, w: World, c: Call)
    requires Inv(sha, w) && LifeInv(w) && c in w.calls && w.calls[c].Updated?
    ensures LifeInv(ContinueStep(sha, w, c, Publish))
  {
    assert PhaseOk(sha, w.transfers, w.blobs, w.calls[c]);
    assert StatusFits(w.transfers, w.events, w.calls[c]);
    PublishOthers(w, c);
    PublishFits(w.transfers, w.events, w.calls[c].t);
  }

  lemma LifeCreate(sha: Hash, w: World, user: string, t: Transfer)
    requires Inv(sha, w) && LifeInv(w)
    ensures LifeInv(CreateStep(w, user, t))
  {
    var w' := CreateStep(w, user, t);
    forall id | id in w.transfers ensures id in w'.transfers && w'.transfers[id] == w.transfers[id] {
    }
  }

  lemma LifeContinue(sha: Hash, w: World, c: Call, progress: Progress)
    requires Inv(sha, w) && LifeInv(w) && c in w.calls
    ensures LifeInv(ContinueStep(sha, w, c, progress))
  {
    var p := w.calls[c];
    match progress
    case Inspect => if p.MarkRead? { LifeMove(w, c, InspectPhase(sha, w.blobs, p)); }
    case Commit(now) => if p.MarkInspected? || p.CompleteRead? { LifeCommit(sha, w, c, now); }
    case Publish => if p.Updated? { LifePublish(sha, w, c); }
    case ReadBody(payload) => if p.UploadRead? { LifeMove(w, c, ReadPhase(sha, p, payload)); }
    case StoreBlob => if p.UploadChecked? { LifeMove(w, c, Finished(Answered)); }
    case Abandon => LifeMove(w, c, Finished(Refused));
  }

  lemma LifeBegin(sha: Hash, w: World, c: Call, purpose: Purpose, user: string, id: string)
    requires Inv(sha, w) && LifeInv(w) && c !in w.calls && NoOverlap(w, Begin(c, purpose, user, id))
    ensures LifeInv(Move(w, c, BeginPhase(w.transfers, purpose, user, id)))
  {
    var p := BeginPhase(w.transfers, purpose, user, id);
    if Lifecycle(p) {
      assert EventsFit(EventsOf(w.events, id), w.transfers[id].transfer);
    }
    LifeMove(w, c, p);
  }

  lemma LifeStep(sha: Hash, w: World, a: Action)
    requires Inv(sha, w) && LifeInv(w) && NoOverlap(w, a)
    ensures LifeInv(Step(sha, w, a))
  {
    if Outside(a) {
      OutsideKeeps(sha, w, a);
    } else if a.Create? {
      LifeCreate(sha, w, a.user, a.t);
    } else if a.Begin? {
      if a.c !in w.calls {
        LifeBegin(sha, w, a.c, a.purpose, a.user, a.id);
      }
    } else if a.c in w.calls {
      LifeContinue(sha, w, a.c, a.progress);
    }
  }

  function Rank(s: Status): nat {
    match s
    case Uploading => 1
    case Ready => 2
    case Completed => 3
    case _ => 0
  }

  ghost predicate RanksKept(transfers: map<string, Record>, transfers': map<string, Record>) {
    forall id :: id in transfers ==>
                   id in transfers' && Rank(transfers[id].transfer.status) <= Rank(transfers'[id].transfer.status)
  }

  /** What a commit does to the rows and to its own call. */
  lemma CommitEffect(sha: Hash, w: World, c: Call, now: int)
    requires c in w.calls && (w.calls[c].MarkInspected? || w.calls[c].CompleteRead?)
    requires w.calls[c].t.id in w.transfers
    ensures var p := w.calls[c];
            var w' := ContinueStep(sha, w, c, Commit(now));
            if Find(w.transfers, p.user, p.t.id).None?
            then w'.transfers == w.transfers && w'.calls == w.calls[c := Finished(NotFound)]
            else && w'.transfers == w.transfers[p.t.id := PostgresUpdate(w.transfers[p.t.id], Pending(p, now))]
                 && w'.calls == w.calls[c := Updated(Pending(p, now))]
  {
  }

  lemma RankCommit(sha: Hash, w: World, c: Call, now: int)
    requires OpenFit(w.transfers, w.events, w.calls)
    requires c in w.calls && (w.calls[c].MarkInspected? || w.calls[c].CompleteRead?)
    ensures RanksKept(w.transfers, ContinueStep(sha, w, c, Commit(now)).transfers)
  {
    assert StatusFits(w.transfers, w.events, w.calls[c]);
    CommitEffect(sha, w, c, now);
  }

  lemma RankStep(sha: Hash, w: World, a: Action)
    requires Inv(sha, w) && LifeInv(w)
    ensures RanksKept(w.transfers, Step(sha, w, a).transfers)
  {
    if Outside(a) {
      OutsideKeeps(sha, w, a);
    } else if a.Create? {
      assert Step(sha, w, a) == CreateStep(w, a.user, a.t);
    } else if a.Continue? && a.c in w.calls {
      assert Step(sha, w, a) == ContinueStep(sha, w, a.c, a.progress);
      if a.progress.Commit? && (w.calls[a.c].MarkInspected? || w.calls[a.c].CompleteRead?) {
        RankCommit(sha, w, a.c, a.progress.now);
      } else {
        OnlyCommitsChangeRows(sha, w, a.c, a.progress);
      }
    } else {
      assert Step(sha, w, a).transfers == w.transfers;
    }
  }

  lemma {:induction false} LifeRun(sha: Hash, w: World, acts: seq<Action>)
    requires Inv(sha, w) && LifeInv(w) && Serialized(sha, w, acts)
    ensures Inv(sha, Run(sha, w, acts)) && LifeInv(Run(sha, w, acts))
    ensures RanksKept(w.transfers, Run(sha, w, acts).transfers)
    decreases |acts|
  {
    if acts != [] {
      InvStep(sha, w, acts[0]);
      LifeStep(sha, w, acts[0]);
      RankStep(sha, w, acts[0]);
      LifeRun(sha, Step(sha, w, acts[0]), acts[1..]);
    }
  }

  /**
   When calls on one transfer do not overlap, its status only moves from uploading to ready to
   completed, and the ready event to the destination and the completed event to the source are each
   published at most once, in that order.
   */
  lemma LifecycleOrdered(sha: Hash, before: seq<Action>, after: seq<Action>, id: string)
    requires Serialized(sha, Init(), before) && Serialized(sha, Run(sha, Init(), before), after)
    requires id in Run(sha, Init(), before).transfers
    ensures var w := Run(sha, Init(), before);
            var w' := Run(sha, w, after);
            && id in w'.transfers
            && 1 <= Rank(w.transfers[id].transfer.status) <= Rank(w'.transfers[id].transfer.status)
            && EventsFit(EventsOf(w'.events, id), w'.transfers[id].transfer)
  {
    LifeRun(sha, Init(), before);
    var w := Run(sha, Init(), before);
    assert EventsFit(EventsOf(w.events, id), w.transfers[id].transfer);
    LifeRun(sha, w, after);
  }

  // ----- Overlapping calls: exactly when a commit advances the status -----

  /** In every run the status is one of three, and a call remembers the status it was admitted with. */
  ghost predicate Admitted(p: Phase) {
    && (p.MarkRead? || p.MarkInspected? ==> p.t.status.Uploading?)
    && (p.CompleteRead? ==> p.t.status.Ready?)
    && (p.Updated? ==> p.t.status.Ready? || p.t.status.Completed?)
  }

  ghost predicate StatusInv(w: World) {
    && (forall id :: id in w.transfers ==> Rank(w.transfers[id].transfer.status) >= 1)
    && (forall c :: c in w.calls ==> Admitted(w.calls[c]))
  }

  lemma StatusCommit(sha: Hash, w: World, c: Call, now: int)
    requires StatusInv(w) && c in w.calls && (w.calls[c].MarkInspected? || w.calls[c].CompleteRead?)
    requires w.calls[c].t.id in w.transfers
    ensures StatusInv(ContinueStep(sha, w, c, Commit(now)))
  {
    CommitEffect(sha, w, c, now);
  }

  lemma StatusContinue(sha: Hash, w: World, c: Call, progress: Progress)
    requires StatusInv(w) && c in w.calls && (!w.calls[c].Finished? ==> w.calls[c].t.id in w.transfers)
    ensures StatusInv(ContinueStep(sha, w, c, progress))
  {
    assert Admitted(w.calls[c]);
    if progress.Commit? && (w.calls[c].MarkInspected? || w.calls[c].CompleteRead?) {
      StatusCommit(sha, w, c, progress.now);
    } else {
      OnlyCommitsChangeRows(sha, w, c, progress);
    }
  }

  lemma StatusStep(sha: Hash, w: World, a: Action)
    requires StatusInv(w) && PhasesOk(sha, w)
    ensures StatusInv(Step(sha, w, a))
  {
    if Outside(a) {
      OutsideKeeps(sha, w, a);
    } else if a.Create? {
      assert Step(sha, w, a) == CreateStep(w, a.user, a.t);
    } else if a.Begin? {
      assert a.c !in w.calls ==> Admitted(BeginPhase(w.transfers, a.purpose, a.user, a.id));
    } else if a.c in w.calls {
      assert PhaseOk(sha, w.transfers, w.blobs, w.calls[a.c]);
      StatusContinue(sha, w, a.c, a.progress);
    }
  }

  lemma {:induction false} StatusRun(sha: Hash, w: World, acts: seq<Action>)
    requires StatusInv(w) && PayloadInv(sha, w)
    ensures StatusInv(Run(sha, w, acts)) && PayloadInv(sha, Run(sha, w, acts))
    decreases |acts|
  {
    if acts != [] {
      PayloadStep(sha, w, acts[0]);
      StatusStep(sha, w, acts[0]);
      StatusRun(sha, Step(sha, w, acts[0]), acts[1..]);
    }
  }

  lemma CommitAdvances(sha: Hash, w: World, c: Call, now: int)
    requires c in w.calls && (w.calls[c].MarkInspected? || w.calls[c].CompleteRead?) && Admitted(w.calls[c])
    requires w.calls[c].t.id in w.transfers && Rank(w.transfers[w.calls[c].t.id].transfer.status) >= 1
    requires Find(w.transfers, w.calls[c].user, w.calls[c].t.id).Some?
    ensures var t := w.calls[c].t;
            var w' := ContinueStep(sha, w, c, Commit(now));
            && t.id in w'.transfers
            && (Rank(w'.transfers[t.id].transfer.status) == Rank(w.transfers[t.id].transfer.status) + 1
                <==> w.transfers[t.id].transfer.status == t.status)
  {
    CommitEffect(sha, w, c, now);
  }

  /**
   The update carries no check of the status it was based on. In any interleaving a commit is the
   lifecycle's next step exactly when the row still has the status the call read.
   */
  lemma CommitAdvancesIffUnchanged(sha: Hash, acts: seq<Action>, c: Call, now: int)
    requires var w := Run(sha, Init(), acts);
             && c in w.calls && (w.calls[c].MarkInspected? || w.calls[c].CompleteRead?)
             && Find(w.transfers, w.calls[c].user, w.calls[c].t.id).Some?
    ensures var w := Run(sha, Init(), acts);
            var t := w.calls[c].t;
            var w' := ContinueStep(sha, w, c, Commit(now));
            && t.id in w.transfers && t.id in w'.transfers
            && (Rank(w'.transfers[t.id].transfer.status) == Rank(w.transfers[t.id].transfer.status) + 1
                <==> w.transfers[t.id].transfer.status == t.status)
  {
    StatusRun(sha, Init(), acts);
    var w := Run(sha, Init(), acts);
    assert Admitted(w.calls[c]);
    CommitAdvances(sha, w, c, now);
  }

  // ----- A run of two overlapping calls, for any hash that prints 64 hex digits -----

  lemma RunThree(sha: Hash, w: World, a: Action, b: Action, c: Action)
    ensures Run(sha, w, [a, b, c]) == Step(sha, Step(sha, Step(sha, w, a), b), c)
  {
    assert [a, b, c][1..] == [b, c] && [b, c][1..] == [c];
    assert Run(sha, w, [a, b, c]) == Run(sha, Step(sha, w, a), [b, c]);
    assert Run(sha, Step(sha, w, a), [b, c]) == Run(sha, Step(sha, Step(sha, w, a), b), [c]);
    assert Run(sha, Step(sha, Step(sha, w, a), b), [c]) == Run(sha, Step(sha, Step(sha, Step(sha, w, a), b), c), []);
  }

  lemma {:induction false} RunConcat(sha: Hash, w: World, acts: seq<Action>, more: seq<Action>)
    ensures Run(sha, w, acts + more) == Run(sha, Run(sha, w, acts), more)
    decreases |acts|
  {
    if acts == [] {
      assert acts + more == more;
    } else {
      assert (acts + more)[1..] == acts[1..] + more;
      RunConcat(sha, Step(sha, w, acts[0]), acts[1..], more);
    }
  }

  /** An empty text from device "a" to device "b". */
  function Note(sha: Hash, status: Status, at: int): Transfer {
    Transfer("t", "a", "b", "text", status, "", "", 0, sha([]), "", "", 0, at)
  }

  ghost predicate NoteWorld(sha: Hash, w: World, status: Status, at: int) {
    && w.transfers == map["t" := Record(Note(sha, status, at), "u")]
    && w.blobs == map["t" := []]
    && w.devices == map["a" := Device("u", None), "b" := Device("u", None)]
  }

  function Setup(sha: Hash): seq<Action> {
    [AddDevice("a", "u", None), AddDevice("b", "u", None), Create("u", Note(sha, Created, 0))]
    + [Begin(0, Upload, "u", "t"), Continue(0, ReadBody([])), Continue(0, StoreBlob)]
  }

  /** Two confirmations inspect the upload; one commits, the transfer is completed, and the other commits. */
  function Overlap(): seq<Action> {
    [Begin(1, Mark, "u", "t"), Continue(1, Inspect), Begin(2, Mark, "u", "t")]
    + [Continue(2, Inspect), Continue(1, Commit(1)), Continue(1, Publish)]
    + [Begin(3, Complete, "u", "t"), Continue(3, Commit(2)), Continue(3, Publish)]
    + [Continue(2, Commit(3)), Continue(2, Publish), AddDevice("a", "u", None)]
  }

  lemma CreatesNote(sha: Hash)
    requires Checksum(sha([]))
    ensures var w := Run(sha, Init(), [AddDevice("a", "u", None), AddDevice("b", "u", None),
                                       Create("u", Note(sha, Created, 0))]);
            && w.transfers == map["t" := Record(Note(sha, Uploading, 0), "u")] && w.blobs == map[]
            && w.devices == map["a" := Device("u", None), "b" := Device("u", None)]
            && w.calls == map[] && w.events == []
  {
    RunThree(sha, Init(), AddDevice("a", "u", None), AddDevice("b", "u", None), Create("u", Note(sha, Created, 0)));
  }

  lemma UploadsNote(sha: Hash, w: World)
    requires w.transfers == map["t" := Record(Note(sha, Uploading, 0), "u")] && w.blobs == map[] && w.calls == map[]
    ensures Run(sha, w, [Begin(0, Upload, "u", "t"), Continue(0, ReadBody([])), Continue(0, StoreBlob)])
            == w.(blobs := map["t" := []], calls := map[0 := Finished(Answered)])
  {
    RunThree(sha, w, Begin(0, Upload, "u", "t"), Continue(0, ReadBody([])), Continue(0, StoreBlob));
    StartsUpload(sha, w);
    var w1 := Step(sha, w, Begin(0, Upload, "u", "t"));
    ReadsNote(sha, w1);
    StoresNote(sha, Step(sha, w1, Continue(0, ReadBody([]))));
  }

  lemma StartsUpload(sha: Hash, w: World)
    requires w.transfers == map["t" := Record(Note(sha, Uploading, 0), "u")] && w.calls == map[]
    ensures Step(sha, w, Begin(0, Upload, "u", "t")) == w.(calls := map[0 := UploadRead(Note(sha, Uploading, 0))])
  {
    assert Find(w.transfers, "u", "t") == Some(Note(sha, Uploading, 0));
  }

  lemma ReadsNote(sha: Hash, w: World)
    requires w.calls == map[0 := UploadRead(Note(sha, Uploading, 0))]
    ensures Step(sha, w, Continue(0, ReadBody([]))) == w.(calls := map[0 := UploadChecked(Note(sha, Uploading, 0), [])])
  {
    assert Matches(sha, Note(sha, Uploading, 0), []);
  }

  lemma StoresNote(sha: Hash, w: World)
    requires w.calls == map[0 := UploadChecked(Note(sha, Uploading, 0), [])] && w.blobs == map[]
    ensures Step(sha, w, Continue(0, StoreBlob)) == w.(blobs := map["t" := []], calls := map[0 := Finished(Answered)])
  {
  }

  lemma CommitsNote(sha: Hash, w: World, c: Call, status: Status, at: int, now: int)
    requires NoteWorld(sha, w, status, at) && c in w.calls
    requires || w.calls[c] == MarkInspected("u", Note(sha, Uploading, 0))
             || w.calls[c] == CompleteRead("u", Note(sha, Ready, 1))
    ensures var w' := Step(sha, w, Continue(c, Commit(now)));
            var next := if w.calls[c].MarkInspected? then Ready else Completed;
            && NoteWorld(sha, w', next, now) && w'.events == w.events
            && w'.calls == w.calls[c := Updated(Note(sha, next, now))]
  {
    assert w.calls[c].t.id == "t" && Find(w.transfers, "u", "t").Some?;
    CommitEffect(sha, w, c, now);
  }

  lemma PublishesNote(sha: Hash, w: World, c: Call, status: Status, at: int)
    requires NoteWorld(sha, w, status, at) && c in w.calls && w.calls[c] == Updated(Note(sha, status, at))
    ensures var w' := Step(sha, w, Continue(c, Publish));
            && NoteWorld(sha, w', status, at) && w'.events == w.events + [EventFor(Note(sha, status, at))]
            && w'.calls == w.calls[c := Finished(Answered)]
  {
  }

  lemma MarksNote(sha: Hash, w: World, c: Call)
    requires NoteWorld(sha, w, Uploading, 0) && c !in w.calls
    ensures Step(sha, w, Begin(c, Mark, "u", "t"))
            == w.(calls := w.calls[c := MarkRead("u", Note(sha, Uploading, 0))])
  {
    assert Find(w.transfers, "u", "t") == Some(Note(sha, Uploading, 0));
  }

  lemma InspectsNote(sha: Hash, w: World, c: Call)
    requires NoteWorld(sha, w, Uploading, 0) && c in w.calls && w.calls[c] == MarkRead("u", Note(sha, Uploading, 0))
    ensures Step(sha, w, Continue(c, Inspect))
            == w.(calls := w.calls[c := MarkInspected("u", Note(sha, Uploading, 0))])
  {
    assert Matches(sha, Note(sha, Uploading, 0), []);
  }

  lemma BothRead(sha: Hash, w: World)
    requires NoteWorld(sha, w, Uploading, 0) && w.calls == map[0 := Finished(Answered)]
    ensures var t := Note(sha, Uploading, 0);
            Run(sha, w, [Begin(1, Mark, "u", "t"), Continue(1, Inspect), Begin(2, Mark, "u", "t")])
            == w.(calls := map[0 := Finished(Answered), 1 := MarkInspected("u", t), 2 := MarkRead("u", t)])
  {
    RunThree(sha, w, Begin(1, Mark, "u", "t"), Continue(1, Inspect), Begin(2, Mark, "u", "t"));
    MarksNote(sha, w, 1);
    var w1 := Step(sha, w, Begin(1, Mark, "u", "t"));
    InspectsNote(sha, w1, 1);
    MarksNote(sha, Step(sha, w1, Continue(1, Inspect)), 2);
  }

  lemma FirstCommits(sha: Hash, w: World)
    requires NoteWorld(sha, w, Uploading, 0) && w.events == []
    requires var t := Note(sha, Uploading, 0);
             w.calls == map[0 := Finished(Answered), 1 := MarkInspected("u", t), 2 := MarkRead("u", t)]
    ensures var t := Note(sha, Uploading, 0);
            var w' := Run(sha, w, [Continue(2, Inspect), Continue(1, Commit(1)), Continue(1, Publish)]);
            && NoteWorld(sha, w', Ready, 1) && w'.events == [ReadyEvent(t)]
            && w'.calls == map[0 := Finished(Answered), 1 := Finished(Answered), 2 := MarkInspected("u", t)]
  {
    RunThree(sha, w, Continue(2, Inspect), Continue(1, Commit(1)), Continue(1, Publish));
    InspectsNote(sha, w, 2);
    var w1 := Step(sha, w, Continue(2, Inspect));
    CommitsNote(sha, w1, 1, Uploading, 0, 1);
    PublishesNote(sha, Step(sha, w1, Continue(1, Commit(1))), 1, Ready, 1);
  }

  lemma ThirdCompletes(sha: Hash, w: World)
    requires NoteWorld(sha, w, Ready, 1) && w.events == [ReadyEvent(Note(sha, Uploading, 0))]
    requires var t := Note(sha, Uploading, 0);
             w.calls == map[0 := Finished(Answered), 1 := Finished(Answered), 2 := MarkInspected("u", t)]
    ensures var t := Note(sha, Uploading, 0);
            var w' := Run(sha, w, [Begin(3, Complete, "u", "t"), Continue(3, Commit(2)), Continue(3, Publish)]);
            && NoteWorld(sha, w', Completed, 2) && w'.events == [ReadyEvent(t), CompletedEvent(t)]
            && 2 in w'.calls && w'.calls[2] == MarkInspected("u", t)
  {
    RunThree(sha, w, Begin(3, Complete, "u", "t"), Continue(3, Commit(2)), Continue(3, Publish));
    var w1 := Step(sha, w, Begin(3, Complete, "u", "t"));
    assert Find(w.transfers, "u", "t") == Some(Note(sha, Ready, 1));
    assert w1 == w.(calls := w.calls[3 := CompleteRead("u", Note(sha, Ready, 1))]);
    CommitsNote(sha, w1, 3, Ready, 1, 2);
    PublishesNote(sha, Step(sha, w1, Continue(3, Commit(2))), 3, Completed, 2);
  }

  lemma SecondReopens(sha: Hash, w: World)
    requires NoteWorld(sha, w, Completed, 2)
    requires w.events == [ReadyEvent(Note(sha, Uploading, 0)), CompletedEvent(Note(sha, Uploading, 0))]
    requires 2 in w.calls && w.calls[2] == MarkInspected("u", Note(sha, Uploading, 0))
    ensures var t := Note(sha, Uploading, 0);
            var w' := Run(sha, w, [Continue(2, Commit(3)), Continue(2, Publish), AddDevice("a", "u", None)]);
            NoteWorld(sha, w', Ready, 3) && w'.events == [ReadyEvent(t), CompletedEvent(t), ReadyEvent(t)]
  {
    RunThree(sha, w, Continue(2, Commit(3)), Continue(2, Publish), AddDevice("a", "u", None));
    CommitsNote(sha, w, 2, Completed, 2, 3);
    PublishesNote(sha, Step(sha, w, Continue(2, Commit(3))), 2, Ready, 3);
  }

  /** A completed transfer goes back to ready and its ready event is published twice. */
  lemma OverlapReopens(sha: Hash)
    requires Checksum(sha([]))
    ensures var w := Run(sha, Init(), Setup(sha) + Overlap());
            && NoteWorld(sha, w, Ready, 3)
            && w.events == [ReadyEvent(Note(sha, Uploading, 0)), CompletedEvent(Note(sha, Uploading, 0)),
                            ReadyEvent(Note(sha, Uploading, 0))]
  {
    var s1 := [AddDevice("a", "u", None), AddDevice("b", "u", None), Create("u", Note(sha, Created, 0))];
    var s2 := [Begin(0, Upload, "u", "t"), Continue(0, ReadBody([])), Continue(0, StoreBlob)];
    var o1 := [Begin(1, Mark, "u", "t"), Continue(1, Inspect), Begin(2, Mark, "u", "t")];
    var o2 := [Continue(2, Inspect), Continue(1, Commit(1)), Continue(1, Publish)];
    var o3 := [Begin(3, Complete, "u", "t"), Continue(3, Commit(2)), Continue(3, Publish)];
    var o4 := [Continue(2, Commit(3)), Continue(2, Publish), AddDevice("a", "u", None)];
    RunConcat(sha, Init(), s1 + s2, o1 + o2 + o3 + o4);
    RunConcat(sha, Init(), s1, s2);
    CreatesNote(sha);
    UploadsNote(sha, Run(sha, Init(), s1));
    var w := Run(sha, Init(), s1 + s2);
    RunConcat(sha, w, o1 + o2 + o3, o4);
    RunConcat(sha, w, o1 + o2, o3);
    RunConcat(sha, w, o1, o2);
    BothRead(sha, w);
    var w1 := Run(sha, w, o1);
    FirstCommits(sha, w1);
    var w2 := Run(sha, w1, o2);
    ThirdCompletes(sha, w2);
    SecondReopens(sha, Run(sha, w2, o3));
  }
}
