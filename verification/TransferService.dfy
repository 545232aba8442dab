/**
 The transfer service in the source's own form: read a record, check it, reassign its fields, write
 it back, publish. A call that nobody interrupts does exactly what its steps do in module Transfers.
 */
module TransferService {
  import opened Options
  import opened Transfers
  import Outbox

  class Server {
    const sha: Hash
    var transfers: map<string, Record>
    var devices: map<string, Device>
    var outbox: Outbox.State
    var blobs: map<string, Bytes>
    var calls: map<Call, Phase>
    var events: seq<Event>
    ghost var firstReady: map<string, bool>

    ghost function View(): World
      reads this
    {
      World(transfers, devices, outbox, blobs, calls, events, firstReady)
    }

    constructor (sha: Hash)
      ensures View() == Init() && this.sha == sha
    {
      this.sha := sha;
      transfers, devices, blobs, calls, events := map[], map[], map[], map[], [];
      outbox, firstReady := Outbox.Init(), map[];
    }

    method Get(user: string, id: string) returns (found: Option<Transfer>)
      ensures found == Find(transfers, user, id)
    {
      if id !in transfers {
        return None;
      }
      var record := transfers[id];
      if user != "" && record.owner != user {
        return None;
      }
      return Some(record.transfer);
    }

    /** The UPDATE statement and the trigger behind it. */
    method Update(user: string, t: Transfer) returns (updated: bool)
      modifies this
      ensures updated == Find(old(transfers), user, t.id).Some?
      ensures View() == if updated then UpdateRow(old(View()), t) else old(View())
    {
      var found := Get(user, t.id);
      if found.None? {
        return false;
      }
      var record := transfers[t.id];
      var was := record.transfer;
      var row := was;
      row := row.(status := t.status, displayName := t.displayName, contentType := t.contentType);
      row := row.(size := t.size, sha256 := t.sha256, updatedAt := t.updatedAt);
      ghost var before := View();
      if row.status == Ready && was.status != Ready {
        var device := if row.destination in devices then devices[row.destination].pushToken else None;
        var taken := exists i :: 0 <= i < |outbox.rows| && SameKey(outbox.rows[i], row);
        if device.Some? && device.value != "" && !taken {
          outbox := Outbox.Step(outbox, Outbox.Enqueue(row.destination, row.id, READY_EVENT));
        }
      }
      transfers := transfers[t.id := record.(transfer := row)];
      if row.status == Ready && t.id !in firstReady {
        firstReady := firstReady[t.id := HasToken(devices, row.destination)];
      }
      return true;
    }

    method InspectUploaded(id: string) returns (found: Option<(int, string)>)
      ensures found == if id in blobs then Some((|blobs[id]|, sha(blobs[id]))) else None
    {
      if id !in blobs {
        return None;
      }
      return Some((|blobs[id]|, sha(blobs[id])));
    }

    /** Get and the status check of MarkUploaded, Complete or an upload. */
    method Admit(c: Call, purpose: Purpose, user: string, id: string)
      requires c !in calls
      modifies this`calls
      ensures View() == Step(sha, old(View()), Begin(c, purpose, user, id))
    {
      var found := Get(user, id);
      var phase;
      if found.None? {
        phase := Finished(NotFound);
      } else {
        var t := found.value;
        match purpose {
          case Mark => phase := if t.status == Uploading then MarkRead(user, t) else Finished(InvalidTransition);
          case Complete =>
            phase := if t.status == Ready || t.status == Downloading then CompleteRead(user, t)
                     else Finished(InvalidTransition);
          case Upload => phase := if t.status == Uploading then UploadRead(t) else Finished(InvalidTransition);
        }
      }
      calls := calls[c := phase];
    }

    method CheckPayload(c: Call)
      requires c in calls && calls[c].MarkRead?
      modifies this`calls
      ensures View() == Step(sha, old(View()), Continue(c, Inspect))
    {
      var p := calls[c];
      var upload := InspectUploaded(p.t.id);
      if upload.None? {
        calls := calls[c := Finished(UploadMissing)];
      } else if upload.value.0 != p.t.size || !EqualFold(upload.value.1, p.t.sha256) {
        calls := calls[c := Finished(UploadIntegrity)];
      } else {
        calls := calls[c := MarkInspected(p.user, p.t)];
      }
    }

    /** Reassigns status, URLs and time of the copy read earlier, and writes it back. */
    method WriteBack(c: Call, now: int)
      requires c in calls && (calls[c].MarkInspected? || calls[c].CompleteRead?)
      modifies this
      ensures View() == Step(sha, old(View()), Continue(c, Commit(now)))
    {
      var p := calls[c];
      var t := p.t;
      t := t.(status := if p.MarkInspected? then Ready else Completed);
      t := t.(uploadURL := "", downloadURL := "");
      t := t.(updatedAt := now);
      var updated := Update(p.user, t);
      calls := calls[c := if updated then Updated(t) else Finished(NotFound)];
    }

    method PublishToDevices(c: Call)
      requires c in calls && calls[c].Updated?
      modifies this`calls, this`events
      ensures View() == Step(sha, old(View()), Continue(c, Publish))
    {
      var t := calls[c].t;
      if t.status == Ready {
        events := events + [Event(READY_EVENT, t.id, t.destination)];
      } else {
        events := events + [Event(COMPLETED_EVENT, t.id, t.source)];
      }
      calls := calls[c := Finished(Answered)];
    }

    /** A confirmation that nobody interrupts: one answer per check, and no effect unless all pass. */
    method MarkUploaded(user: string, id: string, now: int) returns (outcome: Outcome)
      requires id in transfers ==> transfers[id].transfer.id == id
      modifies this
      ensures var found := Find(old(transfers), user, id);
              outcome == if found.None? then NotFound
                         else if !found.value.status.Uploading? then InvalidTransition
                         else if id !in old(blobs) then UploadMissing
                         else if !Matches(sha, found.value, old(blobs)[id]) then UploadIntegrity
                         else Answered
      ensures outcome != Answered ==> View() == old(View())
      ensures outcome == Answered ==>
                var t := Restamped(Find(old(transfers), user, id).value, Ready, now);
                View() == UpdateRow(old(View()), t).(events := old(events) + [Event(READY_EVENT, id, t.destination)])
    {
      var found := Get(user, id);
      if found.None? {
        return NotFound;
      }
      var t := found.value;
      if t.status != Uploading {
        return InvalidTransition;
      }
      var upload := InspectUploaded(id);
      if upload.None? {
        return UploadMissing;
      }
      if upload.value.0 != t.size || !EqualFold(upload.value.1, t.sha256) {
        return UploadIntegrity;
      }
      t := t.(status := Ready, uploadURL := "", downloadURL := "", updatedAt := now);
      var updated := Update(user, t);
      events := events + [Event(READY_EVENT, t.id, t.destination)];
      return Answered;
    }

    /** The local upload route: the body is checked against the declaration before it is stored. */
    method ReceiveBody(c: Call, payload: Bytes)
      requires c in calls && calls[c].UploadRead?
      modifies this`calls
      ensures View() == Step(sha, old(View()), Continue(c, ReadBody(payload)))
    {
      var t := calls[c].t;
      if t.size > MAX_DEV_BLOB_BYTES || |payload| != t.size || !EqualFold(sha(payload), t.sha256) {
        calls := calls[c := Finished(Refused)];
      } else {
        calls := calls[c := UploadChecked(t, payload)];
      }
    }

    method Put(c: Call)
      requires c in calls && calls[c].UploadChecked?
      modifies this`calls, this`blobs
      ensures View() == Step(sha, old(View()), Continue(c, StoreBlob))
    {
      blobs := blobs[calls[c].t.id := calls[c].payload];
      calls := calls[c := Finished(Answered)];
    }
  }
}
