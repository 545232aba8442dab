/**
 Who reaches a transfer: its owner and the unauthenticated caller always, other users never. And what every stored
 transfer, payload and wake-up owes to the checks on the way in.
 */
module TransferAccess {
  import opened Options
  import opened Transfers
  import opened TransferEvents
  import Outbox
  import Encodings

  // ----- Reaching a transfer -----

  /** The owner, and a caller without authentication, find the transfer in every run. */
  lemma OwnerFinds(sha: Hash, acts: seq<Action>, id: string, user: string)
    requires var w := Run(sha, Init(), acts); id in w.transfers && (user == w.transfers[id].owner || user == "")
    ensures var w := Run(sha, Init(), acts);
            Find(w.transfers, user, id) == Some(w.transfers[id].transfer) && w.transfers[id].transfer.id == id
  {
    PayloadRun(sha, Init(), acts);
  }

  /**
   Who finds a transfer may confirm it and upload to it exactly while it is uploading, and complete it exactly once it
   is ready and until it is completed; the confirmation then goes through exactly if the bytes are there, because no
   stored bytes ever fail the check.
   */
  lemma CallsAdmittedIff(sha: Hash, acts: seq<Action>, w: World, id: string, user: string)
    requires w == Run(sha, Init(), acts) && Find(w.transfers, user, id).Some?
    ensures var t := Find(w.transfers, user, id).value;
            && BeginPhase(w.transfers, Mark, user, id)
               == (if t.status.Uploading? then MarkRead(user, t) else Finished(InvalidTransition))
            && BeginPhase(w.transfers, Upload, user, id)
               == (if t.status.Uploading? then UploadRead(t) else Finished(InvalidTransition))
            && BeginPhase(w.transfers, Complete, user, id)
               == (if t.status in {Ready, Downloading} then CompleteRead(user, t) else Finished(InvalidTransition))
            && InspectPhase(sha, w.blobs, MarkRead(user, t))
               == (if id in w.blobs then MarkInspected(user, t) else Finished(UploadMissing))
  {
    PayloadRun(sha, Init(), acts);
  }

  /** Another user is told that there is no such transfer, whatever it asks for, and downloads nothing. */
  lemma StrangerFindsNothing(w: World, id: string, user: string, purpose: Purpose)
    requires id in w.transfers && user != "" && user != w.transfers[id].owner
    ensures Find(w.transfers, user, id) == None && Download(w, user, id) == None
    ensures BeginPhase(w.transfers, purpose, user, id) == Finished(NotFound)
  {
  }

  /** Every call on the transfer is another user's. */
  predicate OnlyStrangers(acts: seq<Action>, id: string, owner: string) {
    forall i :: 0 <= i < |acts| && acts[i].Begin? && acts[i].id == id ==> acts[i].user != "" && acts[i].user != owner
  }

  /** No call on the transfer is under way. */
  ghost predicate NoneOpen(calls: map<Call, Phase>, id: string) {
    forall c :: c in calls && !calls[c].Finished? ==> calls[c].t.id != id
  }

  /** Row, bytes, events, wake-ups and history of one transfer. */
  ghost predicate Untouched(w: World, w': World, id: string) {
    && id in w.transfers && id in w'.transfers && w'.transfers[id] == w.transfers[id]
    && (id in w.blobs <==> id in w'.blobs) && (id in w.blobs ==> w'.blobs[id] == w.blobs[id])
    && EventsOf(w'.events, id) == EventsOf(w.events, id)
    && WakeUps(w'.outbox.rows, id) == WakeUps(w.outbox.rows, id)
  }

  lemma WorkerUntouched(o: Outbox.State, a: Outbox.Action, id: string)
    requires !a.Enqueue?
    ensures WakeUps(Outbox.Step(o, a).rows, id) == WakeUps(o.rows, id)
  {
    WorkerKeepsKeys(o, a);
    var o' := Outbox.Step(o, a);
    forall i | 0 <= i < |o.rows| ensures i in WakeUps(o'.rows, id) <==> i in WakeUps(o.rows, id) {
      assert SameRowKey(o.rows[i], o'.rows[i]);
    }
  }

  lemma OutsideUntouched(sha: Hash, w: World, a: Action, id: string)
    requires Outside(a) && id in w.transfers
    ensures Untouched(w, Step(sha, w, a), id) && Step(sha, w, a).calls == w.calls
  {
    OutsideKeeps(sha, w, a);
    if a.Worker? && !a.action.Enqueue? {
      WorkerUntouched(w.outbox, a.action, id);
    }
  }

  lemma TriggerUntouched(w: World, was: Transfer, t: Transfer, id: string)
    requires t.id != id
    ensures WakeUps(Trigger(w, was, t).rows, id) == WakeUps(w.outbox.rows, id)
  {
  }

  lemma CommitUntouched(w: World, c: Call, user: string, t: Transfer, id: string)
    requires id in w.transfers && t.id != id && RowsPlain(w.transfers) && t.id in w.transfers
    ensures Untouched(w, CommitStep(w, c, user, t), id)
  {
    if Find(w.transfers, user, t.id).Some? {
      var was := w.transfers[t.id];
      TriggerUntouched(w, was.transfer, PostgresUpdate(was, t).transfer, id);
    }
  }

  lemma PublishUntouched(sha: Hash, w: World, c: Call, id: string)
    requires id in w.transfers && c in w.calls && w.calls[c].Updated? && w.calls[c].t.id != id
    ensures Untouched(w, ContinueStep(sha, w, c, Publish), id)
  {
    EventsAppend(w.events, EventFor(w.calls[c].t), id);
  }

  lemma PlainUntouched(sha: Hash, w: World, c: Call, progress: Progress, id: string)
    requires id in w.transfers && c in w.calls && (!w.calls[c].Finished? ==> w.calls[c].t.id != id)
    requires !(progress.Commit? && (w.calls[c].MarkInspected? || w.calls[c].CompleteRead?))
    requires !(progress.Publish? && w.calls[c].Updated?)
    ensures Untouched(w, ContinueStep(sha, w, c, progress), id)
  {
  }

  /** A continuing call stays on its transfer, and moves nobody else. */
  ghost predicate StaysOn(calls: map<Call, Phase>, calls': map<Call, Phase>, c: Call)
    requires c in calls
  {
    && calls'.Keys == calls.Keys && (forall d :: d in calls && d != c ==> calls'[d] == calls[d])
    && (!calls'[c].Finished? ==> !calls[c].Finished? && calls'[c].t.id == calls[c].t.id)
  }

  lemma CommitStays(sha: Hash, w: World, c: Call, now: int)
    requires c in w.calls
    ensures StaysOn(w.calls, ContinueStep(sha, w, c, Commit(now)).calls, c)
  {
  }

  lemma OtherStays(sha: Hash, w: World, c: Call, progress: Progress)
    requires c in w.calls && !progress.Commit?
    ensures StaysOn(w.calls, ContinueStep(sha, w, c, progress).calls, c)
  {
    var p := w.calls[c];
    var calls := ContinueStep(sha, w, c, progress).calls;
    assert calls == w.calls || calls == w.calls[c := calls[c]];
  }

  lemma ContinueUntouched(sha: Hash, w: World, c: Call, progress: Progress, id: string)
    requires PayloadInv(sha, w) && id in w.transfers && c in w.calls && NoneOpen(w.calls, id)
    ensures var w' := ContinueStep(sha, w, c, progress); Untouched(w, w', id) && NoneOpen(w'.calls, id)
  {
    var p := w.calls[c];
    assert PhaseOk(sha, w.transfers, w.blobs, p);
    if progress.Commit? {
      CommitStays(sha, w, c, progress.now);
    } else {
      OtherStays(sha, w, c, progress);
    }
    if progress.Commit? && (p.MarkInspected? || p.CompleteRead?) {
      CommitUntouched(w, c, p.user, Pending(p, progress.now), id);
    } else if progress.Publish? && p.Updated? {
      PublishUntouched(sha, w, c, id);
    } else {
      PlainUntouched(sha, w, c, progress, id);
    }
  }

  lemma StrangersStep(sha: Hash, w: World, a: Action, id: string)
    requires PayloadInv(sha, w) && id in w.transfers && NoneOpen(w.calls, id)
    requires OnlyStrangers([a], id, w.transfers[id].owner)
    ensures Untouched(w, Step(sha, w, a), id) && NoneOpen(Step(sha, w, a).calls, id)
  {
    if Outside(a) {
      OutsideUntouched(sha, w, a, id);
    } else if a.Begin? {
      assert [a][0] == a;
      if a.c !in w.calls && a.id == id {
        StrangerFindsNothing(w, id, a.user, a.purpose);
      }
    } else if a.Continue? && a.c in w.calls {
      ContinueUntouched(sha, w, a.c, a.progress, id);
    }
  }

  lemma {:induction false} StrangersRun(sha: Hash, w: World, acts: seq<Action>, id: string)
    requires PayloadInv(sha, w) && id in w.transfers && NoneOpen(w.calls, id)
    requires OnlyStrangers(acts, id, w.transfers[id].owner)
    ensures Untouched(w, Run(sha, w, acts), id)
    decreases |acts|
  {
    if acts != [] {
      assert OnlyStrangers([acts[0]], id, w.transfers[id].owner);
      StrangersStep(sha, w, acts[0], id);
      PayloadStep(sha, w, acts[0]);
      StrangersRun(sha, Step(sha, w, acts[0]), acts[1..], id);
    }
  }

  /**
   Whatever other users, devices and workers do, in any interleaving: as long as nobody but strangers calls on a
   transfer, its row, its bytes, its events and its wake-ups stay as they are.
   */
  lemma StrangersChangeNothing(sha: Hash, before: seq<Action>, w: World, acts: seq<Action>, id: string)
    requires w == Run(sha, Init(), before) && id in w.transfers && NoneOpen(w.calls, id)
    requires OnlyStrangers(acts, id, w.transfers[id].owner)
    ensures Untouched(w, Run(sha, w, acts), id)
  {
    PayloadRun(sha, Init(), before);
    StrangersRun(sha, w, acts, id);
  }

  // ----- What is stored -----

  /** Endpoints that exist and were the owner's, a size up to 1 GiB, 64 hexadecimal digits, one of the five kinds. */
  ghost predicate Checked(w: World, r: Record) {
    && r.transfer.source in w.devices && r.transfer.destination in w.devices
    && r.transfer.source != "" && r.transfer.destination != ""
    && 0 <= r.transfer.size <= 1_073_741_824
    && |r.transfer.displayName| <= 255 && |r.transfer.contentType| <= 120
    && |r.transfer.sha256| == 64 && (forall i :: 0 <= i < 64 ==> Hexadecimal(r.transfer.sha256[i]))
    && (r.transfer.kind == "file" || r.transfer.kind == "photo" || r.transfer.kind == "link"
        || r.transfer.kind == "text" || r.transfer.kind == "clipboard")
    && (r.owner != "" ==>
          w.devices[r.transfer.source].owner == r.owner && w.devices[r.transfer.destination].owner == r.owner)
  }

  predicate Hexadecimal(c: char) {
    c in "0123456789abcdefABCDEF"
  }

  lemma HexadecimalIsHex(c: char)
    ensures Hexadecimal(c) <==> Encodings.HexValue(c).Some?
  {
    assert "0123456789abcdefABCDEF" == ['0', '1', '2', '3', '4', '5', '6', '7', '8', '9', 'a', 'b', 'c', 'd', 'e', 'f',
                                        'A', 'B', 'C', 'D', 'E', 'F'];
  }

  ghost predicate AllChecked(w: World) {
    forall id :: id in w.transfers ==> Checked(w, w.transfers[id])
  }

  /** Every action leaves devices in use in place and with their owner. */
  lemma DevicesStay(sha: Hash, w: World, a: Action, id: string)
    requires id in w.transfers
    ensures var w' := Step(sha, w, a);
            var t := w.transfers[id].transfer;
            forall d :: d in w.devices && (d == t.source || d == t.destination) ==>
                          d in w'.devices && w'.devices[d].owner == w.devices[d].owner
  {
    if a.DeleteDevice? {
      assert w.transfers[id].transfer.source == a.id || w.transfers[id].transfer.destination == a.id ==>
          Referenced(w.transfers, a.id);
    }
  }

  lemma CheckedStep(sha: Hash, w: World, a: Action)
    requires PayloadInv(sha, w) && AllChecked(w)
    ensures AllChecked(Step(sha, w, a))
  {
    var w' := Step(sha, w, a);
    PayloadStep(sha, w, a);
    forall id | id in w'.transfers ensures Checked(w', w'.transfers[id]) {
      if id in w.transfers {
        assert Checked(w, w.transfers[id]);
        DevicesStay(sha, w, a, id);
      } else {
        NewRowsCreated(sha, w, a, id);
        CreateChecks(w, a.user, a.t);
      }
    }
  }

  lemma NewRowsCreated(sha: Hash, w: World, a: Action, id: string)
    requires id in Step(sha, w, a).transfers && id !in w.transfers
    ensures a.Create? && a.t.id == id && CreateStep(w, a.user, a.t) != w
  {
    if Outside(a) {
      OutsideKeeps(sha, w, a);
    }
  }

  lemma CreateChecks(w: World, user: string, t: Transfer)
    requires CreateStep(w, user, t) != w
    ensures var w' := CreateStep(w, user, t); t.id in w'.transfers && Checked(w', w'.transfers[t.id])
  {
    forall i | 0 <= i < 64 ensures Hexadecimal(t.sha256[i]) {
      HexadecimalIsHex(t.sha256[i]);
    }
  }

  lemma {:induction false} CheckedRun(sha: Hash, w: World, acts: seq<Action>)
    requires PayloadInv(sha, w) && AllChecked(w)
    ensures AllChecked(Run(sha, w, acts))
    decreases |acts|
  {
    if acts != [] {
      CheckedStep(sha, w, acts[0]);
      PayloadStep(sha, w, acts[0]);
      CheckedRun(sha, Step(sha, w, acts[0]), acts[1..]);
    }
  }

  /** In every run every stored transfer passed the checks, and its devices are still there and still its owner's. */
  lemma StoredTransfersAreChecked(sha: Hash, acts: seq<Action>, id: string)
    requires id in Run(sha, Init(), acts).transfers
    ensures var w := Run(sha, Init(), acts); Checked(w, w.transfers[id])
  {
    CheckedRun(sha, Init(), acts);
  }

  /** A transfer is created exactly when it passes the checks; then it waits for its upload, and is its creator's. */
  lemma CreatedIffChecked(sha: Hash, w: World, user: string, t: Transfer)
    requires t.id !in w.transfers
    ensures var w' := Step(sha, w, Create(user, t));
            && (t.id in w'.transfers <==> Checked(w, Record(t, user)))
            && (t.id in w'.transfers ==>
                  && w' == w.(transfers := w.transfers[t.id := w'.transfers[t.id]])
                  && w'.transfers[t.id].owner == user && w'.transfers[t.id].transfer.status.Uploading?
                  && SameIdentity(w'.transfers[t.id].transfer, t) && Plain(w'.transfers[t.id].transfer))
            && (t.id !in w'.transfers ==> w' == w)
  {
    if Checked(w, Record(t, user)) {
      forall i | 0 <= i < 64 ensures Encodings.HexValue(t.sha256[i]).Some? {
        assert Hexadecimal(t.sha256[i]);
        HexadecimalIsHex(t.sha256[i]);
      }
    } else if t.id in Step(sha, w, Create(user, t)).transfers {
      CreateChecks(w, user, t);
      forall i | 0 <= i < 64 ensures Hexadecimal(t.sha256[i]) {
        HexadecimalIsHex(t.sha256[i]);
      }
    }
  }

  /** Nothing larger than 64 MiB is stored, or about to be. */
  ghost predicate PayloadsFit(w: World) {
    && (forall id :: id in w.blobs ==> |w.blobs[id]| <= 67_108_864)
    && forall c :: c in w.calls ==> PayloadFits(w.calls[c])
  }

  predicate PayloadFits(p: Phase) {
    p.UploadChecked? ==> |p.payload| <= 67_108_864
  }

  lemma FitsContinue(sha: Hash, w: World, c: Call, progress: Progress)
    requires PayloadsFit(w) && c in w.calls
    ensures PayloadsFit(ContinueStep(sha, w, c, progress))
  {
    var w' := ContinueStep(sha, w, c, progress);
    assert PayloadFits(w.calls[c]);
    forall d | d in w'.calls ensures PayloadFits(w'.calls[d]) {
      assert d in w.calls && PayloadFits(w.calls[d]);
    }
  }

  lemma {:induction false} FitsRun(sha: Hash, w: World, acts: seq<Action>)
    requires PayloadsFit(w)
    ensures PayloadsFit(Run(sha, w, acts))
    decreases |acts|
  {
    if acts != [] {
      var a := acts[0];
      if Outside(a) {
        OutsideKeeps(sha, w, a);
      } else if a.Continue? && a.c in w.calls {
        FitsContinue(sha, w, a.c, a.progress);
      } else {
        forall d | d in Step(sha, w, a).calls ensures PayloadFits(Step(sha, w, a).calls[d]) {
          assert d in w.calls ==> PayloadFits(w.calls[d]);
        }
      }
      FitsRun(sha, Step(sha, w, a), acts[1..]);
    }
  }

  /** In every run no stored payload is larger than 64 MiB. */
  lemma StoredPayloadsFit(sha: Hash, acts: seq<Action>, id: string)
    requires id in Run(sha, Init(), acts).blobs
    ensures |Run(sha, Init(), acts).blobs[id]| <= 67_108_864
  {
    FitsRun(sha, Init(), acts);
  }

  // ----- Wake-ups -----

  /** The row added is for a transfer that has just turned ready, and for its destination. */
  predicate JustReady(w: World, w': World) {
    |w'.outbox.rows| == |w.outbox.rows| + 1
    && var row := w'.outbox.rows[|w.outbox.rows|];
       && row.transferId in w.transfers && row.transferId in w'.transfers
       && !w.transfers[row.transferId].transfer.status.Ready? && w'.transfers[row.transferId].transfer.status.Ready?
       && row.deviceId == w.transfers[row.transferId].transfer.destination
  }

  lemma CommitJustReady(w: World, c: Call, user: string, t: Transfer)
    requires t.id in w.transfers && w.transfers[t.id].transfer.id == t.id
    ensures var w' := CommitStep(w, c, user, t); w'.outbox == w.outbox || JustReady(w, w')
  {
  }

  predicate NewWakeUp(w: World, o: Outbox.State) {
    |o.rows| == |w.outbox.rows| + 1
    && var row := o.rows[|w.outbox.rows|];
       && row.deviceId in w.devices && row.attempts == 0 && !Outbox.Terminal(row) && row.lockedAt.None?
       && w.devices[row.deviceId].pushToken.Some? && |w.devices[row.deviceId].pushToken.value| > 0
       && row.eventType == "transfer.ready"
  }

  lemma TriggerNeedsToken(w: World, was: Transfer, t: Transfer)
    ensures Trigger(w, was, t) == w.outbox || NewWakeUp(w, Trigger(w, was, t))
  {
  }

  lemma CommitNeedsToken(w: World, c: Call, user: string, t: Transfer)
    requires t.id in w.transfers
    ensures CommitStep(w, c, user, t).outbox == w.outbox || NewWakeUp(w, CommitStep(w, c, user, t).outbox)
  {
    var was := w.transfers[t.id];
    TriggerNeedsToken(w, was.transfer, PostgresUpdate(was, t).transfer);
  }

  lemma OnlyCommitsWake(sha: Hash, w: World, c: Call, progress: Progress)
    requires c in w.calls && !(progress.Commit? && (w.calls[c].MarkInspected? || w.calls[c].CompleteRead?))
    ensures ContinueStep(sha, w, c, progress).outbox == w.outbox
  {
  }

  /**
   In every run, a step that adds a row to the outbox turns a transfer ready that was not, and finds a push token of at
   least one character on the transfer's destination.
   */
  lemma WakeUpsNeedToken(sha: Hash, acts: seq<Action>, w: World, a: Action)
    requires w == Run(sha, Init(), acts) && |Step(sha, w, a).outbox.rows| != |w.outbox.rows|
    ensures NewWakeUp(w, Step(sha, w, a).outbox) && JustReady(w, Step(sha, w, a))
  {
    PayloadRun(sha, Init(), acts);
    if a.Worker? && !a.action.Enqueue? {
      WorkerKeepsKeys(w.outbox, a.action);
    } else if a.Continue? && a.c in w.calls {
      var p := w.calls[a.c];
      if a.progress.Commit? && (p.MarkInspected? || p.CompleteRead?) {
        assert PhaseOk(sha, w.transfers, w.blobs, p);
        CommitNeedsToken(w, a.c, p.user, Pending(p, a.progress.now));
        CommitJustReady(w, a.c, p.user, Pending(p, a.progress.now));
      } else {
        OnlyCommitsWake(sha, w, a.c, a.progress);
      }
    }
  }

  // ----- The way through -----

  /** The checked body of an upload, a confirmation and a completion by the owner, one after the other. */
  function Lifecycle(user: string, id: string, payload: Bytes, now: int): seq<Action> {
    [Begin(0, Upload, user, id), Continue(0, ReadBody(payload)), Continue(0, StoreBlob)]
    + [Begin(1, Mark, user, id), Continue(1, Inspect), Continue(1, Commit(now))]
    + [Continue(1, Publish), Begin(2, Complete, user, id), Continue(2, Commit(now))]
  }

  lemma Uploads(sha: Hash, w: World, user: string, id: string, payload: Bytes, t: Transfer)
    requires w.calls == map[] && Find(w.transfers, user, id) == Some(t) && t.id == id && t.status.Uploading?
    requires |payload| == t.size <= 67_108_864 && EqualFold(sha(payload), t.sha256)
    ensures Run(sha, w, [Begin(0, Upload, user, id), Continue(0, ReadBody(payload)), Continue(0, StoreBlob)])
            == w.(calls := map[0 := Finished(Answered)], blobs := w.blobs[id := payload])
  {
    RunThree(sha, w, Begin(0, Upload, user, id), Continue(0, ReadBody(payload)), Continue(0, StoreBlob));
    var w1 := Step(sha, w, Begin(0, Upload, user, id));
    assert w1 == w.(calls := map[0 := UploadRead(t)]);
    var w2 := Step(sha, w1, Continue(0, ReadBody(payload)));
    assert w2 == w.(calls := map[0 := UploadChecked(t, payload)]);
  }

  lemma Confirms(sha: Hash, w: World, user: string, id: string, payload: Bytes, t: Transfer, now: int)
    requires w.calls == map[0 := Finished(Answered)] && Find(w.transfers, user, id) == Some(t) && t.id == id
    requires t.status.Uploading? && id in w.blobs && w.blobs[id] == payload
    requires |payload| == t.size && EqualFold(sha(payload), t.sha256)
    ensures var w' := Run(sha, w, [Begin(1, Mark, user, id), Continue(1, Inspect), Continue(1, Commit(now))]);
            && w'.calls == map[0 := Finished(Answered), 1 := Updated(Restamped(t, Ready, now))]
            && w'.events == w.events && w'.blobs == w.blobs
            && Find(w'.transfers, user, id) == Some(PostgresUpdate(w.transfers[id], Restamped(t, Ready, now)).transfer)
  {
    RunThree(sha, w, Begin(1, Mark, user, id), Continue(1, Inspect), Continue(1, Commit(now)));
    var w1 := Step(sha, w, Begin(1, Mark, user, id));
    assert w1 == w.(calls := map[0 := Finished(Answered), 1 := MarkRead(user, t)]);
    var w2 := Step(sha, w1, Continue(1, Inspect));
    assert w2 == w.(calls := map[0 := Finished(Answered), 1 := MarkInspected(user, t)]);
    CommitsMark(sha, w2, user, t, now);
  }

  lemma CommitsMark(sha: Hash, w: World, user: string, t: Transfer, now: int)
    requires 1 in w.calls && w.calls[1] == MarkInspected(user, t) && Find(w.transfers, user, t.id).Some?
    ensures var w' := Step(sha, w, Continue(1, Commit(now)));
            && w'.calls == w.calls[1 := Updated(Restamped(t, Ready, now))]
            && w'.events == w.events && w'.blobs == w.blobs
            && Find(w'.transfers, user, t.id)
               == Some(PostgresUpdate(w.transfers[t.id], Restamped(t, Ready, now)).transfer)
  {
    CommitEffect(sha, w, 1, now);
  }

  lemma Completes(sha: Hash, w: World, user: string, id: string, t: Transfer, now: int)
    requires w.calls == map[0 := Finished(Answered), 1 := Updated(t)] && t.id == id && t.status.Ready?
    requires Find(w.transfers, user, id).Some? && Find(w.transfers, user, id).value.status.Ready?
    requires Find(w.transfers, user, id).value.id == id
    ensures var w' := Run(sha, w, [Continue(1, Publish), Begin(2, Complete, user, id), Continue(2, Commit(now))]);
            && w'.events == w.events + [Event("transfer.ready", id, t.destination)] && w'.blobs == w.blobs
            && Find(w'.transfers, user, id).Some? && Find(w'.transfers, user, id).value.status.Completed?
            && 2 in w'.calls && w'.calls[2].Updated?
            && EventFor(w'.calls[2].t) == Event("transfer.completed", id, Find(w.transfers, user, id).value.source)
  {
    RunThree(sha, w, Continue(1, Publish), Begin(2, Complete, user, id), Continue(2, Commit(now)));
    var w1 := Step(sha, w, Continue(1, Publish));
    assert w1.transfers == w.transfers && w1.events == w.events + [EventFor(t)];
    var u := Find(w.transfers, user, id).value;
    var w2 := Step(sha, w1, Begin(2, Complete, user, id));
    assert 2 !in w1.calls && w2 == w1.(calls := w1.calls[2 := CompleteRead(user, u)]);
    CommitsCompletion(sha, w2, user, u, now);
  }

  lemma CommitsCompletion(sha: Hash, w: World, user: string, t: Transfer, now: int)
    requires 2 in w.calls && w.calls[2] == CompleteRead(user, t) && Find(w.transfers, user, t.id).Some?
    ensures var w' := Step(sha, w, Continue(2, Commit(now)));
            && w'.calls == w.calls[2 := Updated(Restamped(t, Completed, now))] && w'.events == w.events
            && w'.blobs == w.blobs
            && Find(w'.transfers, user, t.id).Some? && Find(w'.transfers, user, t.id).value.status.Completed?
  {
    CommitEffect(sha, w, 2, now);
  }

  /**
   Undisturbed, an upload with the declared size and checksum goes through: the confirmation announces the transfer to
   its destination, it can be downloaded, and its completion is announced to its source.
   */
  lemma MatchingUploadGoesThrough(sha: Hash, w: World, user: string, id: string, payload: Bytes, t: Transfer, now: int)
    requires w.calls == map[] && Find(w.transfers, user, id) == Some(t) && t.id == id && t.status.Uploading?
    requires |payload| == t.size <= 67_108_864 && EqualFold(sha(payload), t.sha256)
    ensures var w' := Step(sha, Run(sha, w, Lifecycle(user, id, payload, now)), Continue(2, Publish));
            && Find(w'.transfers, user, id).Some? && Find(w'.transfers, user, id).value.status.Completed?
            && Download(w', user, id) == Some(payload)
            && w'.events == w.events + [Event("transfer.ready", id, t.destination),
                                        Event("transfer.completed", id, t.source)]
  {
    var a := [Begin(0, Upload, user, id), Continue(0, ReadBody(payload)), Continue(0, StoreBlob)];
    var b := [Begin(1, Mark, user, id), Continue(1, Inspect), Continue(1, Commit(now))];
    var c := [Continue(1, Publish), Begin(2, Complete, user, id), Continue(2, Commit(now))];
    RunConcat(sha, w, a + b, c);
    RunConcat(sha, w, a, b);
    Uploads(sha, w, user, id, payload, t);
    var w1 := Run(sha, w, a);
    Confirms(sha, w1, user, id, payload, t, now);
    var w2 := Run(sha, w1, b);
    Completes(sha, w2, user, id, Restamped(t, Ready, now), now);
    PublishesLast(sha, Run(sha, w2, c), user, id);
  }

  lemma PublishesLast(sha: Hash, w: World, user: string, id: string)
    requires 2 in w.calls && w.calls[2].Updated?
    ensures var w' := Step(sha, w, Continue(2, Publish));
            w'.transfers == w.transfers && w'.blobs == w.blobs && w'.events == w.events + [EventFor(w.calls[2].t)]
  {
  }
}
