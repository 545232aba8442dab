/**
 Transfers on Postgres with the local payload store: service calls are split at every repository,
 payload and publisher access and interleave freely with each other, with device changes and with
 the outbox workers. The readiness trigger feeds the outbox of module Outbox.

 `sha` stands for SHA-256 in lower-case hex. `firstReady` is history: for each transfer that ever
 became ready, whether its destination then had a push token.
 */
module Transfers {
  import opened Options
  import Outbox
  import Encodings

  const MAX_TRANSFER_BYTES: int := 0x4000_0000
  const MAX_DEV_BLOB_BYTES: int := 0x400_0000
  const MAX_DISPLAY_NAME: nat := 255
  const MAX_CONTENT_TYPE: nat := 120
  const READY_EVENT := "transfer.ready"
  const COMPLETED_EVENT := "transfer.completed"

  type Bytes = seq<bv8>
  type Hash = Bytes -> string
  type Call = nat

  datatype Status = Created | Uploading | Ready | Downloading | Completed | Failed

  datatype Transfer = Transfer(
    id: string,
    source: string,
    destination: string,
    kind: string,
    status: Status,
    displayName: string,
    contentType: string,
    size: int,
    sha256: string,
    uploadURL: string,
    downloadURL: string,
    createdAt: int,
    updatedAt: int)

  datatype Record = Record(transfer: Transfer, owner: string)
  datatype Device = Device(owner: string, pushToken: Option<string>)
  datatype Event = Event(name: string, transferId: string, device: string)

  datatype Outcome = Answered | NotFound | InvalidTransition | UploadMissing | UploadIntegrity | Refused

  datatype Phase =
    | MarkRead(user: string, t: Transfer)       // MarkUploaded after Get
    | MarkInspected(user: string, t: Transfer)  // payload matched; about to Update
    | CompleteRead(user: string, t: Transfer)   // Complete after Get
    | Updated(t: Transfer)                      // row written; about to publish
    | UploadRead(t: Transfer)                   // devUpload after Get
    | UploadChecked(t: Transfer, payload: Bytes)
    | Finished(outcome: Outcome)

  datatype World = World(
    transfers: map<string, Record>,
    devices: map<string, Device>,
    outbox: Outbox.State,
    blobs: map<string, Bytes>,
    calls: map<Call, Phase>,
    events: seq<Event>,
    firstReady: map<string, bool>)

  datatype Purpose = Mark | Complete | Upload

  /** What one service call or upload does between two points where others may run. */
  datatype Progress =
    | Inspect
    | Commit(now: int)
    | Publish
    | ReadBody(payload: Bytes)
    | StoreBlob
    | Abandon              // an error or crash between two accesses

  datatype Action =
    | AddDevice(id: string, owner: string, pushToken: Option<string>)
    | SetPushToken(id: string, token: string)
    | DeleteDevice(id: string)
    | Create(user: string, t: Transfer)
    | Begin(c: Call, purpose: Purpose, user: string, id: string)
    | Continue(c: Call, progress: Progress)
    | Worker(action: Outbox.Action)

  // ----- Values -----

  predicate EqualFold(a: string, b: string) {
    Encodings.Lower(a) == Encodings.Lower(b)
  }

  predicate Checksum(s: string) {
    |s| == 64 && forall i :: 0 <= i < |s| ==> Encodings.HexValue(s[i]).Some?
  }

  predicate ValidInput(t: Transfer) {
    && t.source != "" && t.destination != ""
    && 0 <= t.size <= MAX_TRANSFER_BYTES
    && |t.displayName| <= MAX_DISPLAY_NAME && |t.contentType| <= MAX_CONTENT_TYPE
    && Checksum(t.sha256)
    && t.kind in {"file", "photo", "link", "text", "clipboard"}
  }

  predicate Matches(sha: Hash, t: Transfer, payload: Bytes) {
    |payload| == t.size && EqualFold(sha(payload), t.sha256)
  }

  // ----- The repository -----

  predicate Visible(r: Record, user: string) {
    user == "" || r.owner == user
  }

  function Find(transfers: map<string, Record>, user: string, id: string): Option<Transfer> {
    if id in transfers && Visible(transfers[id], user) then Some(transfers[id].transfer) else None
  }

  /** The columns the UPDATE statement sets; identity, endpoints, kind and owner are not among them. */
  function PostgresUpdate(r: Record, t: Transfer): Record {
    r.(transfer := r.transfer.(status := t.status, displayName := t.displayName, contentType := t.contentType,
                               size := t.size, sha256 := t.sha256, updatedAt := t.updatedAt))
  }

  /** The memory repository replaces the whole transfer. */
  function MemoryUpdate(r: Record, t: Transfer): Record {
    r.(transfer := t)
  }

  predicate OwnsBoth(devices: map<string, Device>, user: string, t: Transfer) {
    && t.source in devices && t.destination in devices  // foreign keys
    && (user != "" ==> devices[t.source].owner == user && devices[t.destination].owner == user)
  }

  function Enqueued(outbox: Outbox.State, t: Transfer): bool {
    exists i :: 0 <= i < |outbox.rows| && SameKey(outbox.rows[i], t)
  }

  predicate SameKey(r: Outbox.Row, t: Transfer) {
    r.deviceId == t.destination && r.transferId == t.id && r.eventType == READY_EVENT
  }

  predicate HasToken(devices: map<string, Device>, id: string) {
    id in devices && devices[id].pushToken.Some? && devices[id].pushToken.value != ""
  }

  /** AFTER UPDATE OF status: a row for the destination's token, unless the unique key is taken. */
  function Trigger(w: World, was: Transfer, t: Transfer): Outbox.State {
    if t.status.Ready? && !was.status.Ready? && HasToken(w.devices, t.destination) && !Enqueued(w.outbox, t)
    then Outbox.Step(w.outbox, Outbox.Enqueue(t.destination, t.id, READY_EVENT))
    else w.outbox
  }

  function UpdateRow(w: World, t: Transfer): World
    requires t.id in w.transfers
  {
    var was := w.transfers[t.id];
    var row := PostgresUpdate(was, t);
    w.(transfers := w.transfers[t.id := row],
       outbox := Trigger(w, was.transfer, row.transfer),
       firstReady := if row.transfer.status.Ready? && t.id !in w.firstReady
                     then w.firstReady[t.id := HasToken(w.devices, row.transfer.destination)] else w.firstReady)
  }

  // ----- One step -----

  function Move(w: World, c: Call, p: Phase): World {
    w.(calls := w.calls[c := p])
  }

  function Restamped(t: Transfer, status: Status, now: int): Transfer {
    t.(status := status, uploadURL := "", downloadURL := "", updatedAt := now)
  }

  function CommitStep(w: World, c: Call, user: string, t: Transfer): World {
    if Find(w.transfers, user, t.id).None? then Move(w, c, Finished(NotFound))
    else Move(UpdateRow(w, t), c, Updated(t))
  }

  predicate Admits(purpose: Purpose, status: Status) {
    if purpose.Complete? then status.Ready? || status.Downloading? else status.Uploading?
  }

  /** Get, then the status check. */
  function BeginPhase(transfers: map<string, Record>, purpose: Purpose, user: string, id: string): Phase {
    var t := Find(transfers, user, id);
    if t.None? then Finished(NotFound)
    else if !Admits(purpose, t.value.status) then Finished(InvalidTransition)
    else match purpose
      case Mark => MarkRead(user, t.value)
      case Complete => CompleteRead(user, t.value)
      case Upload => UploadRead(t.value)
  }

  function InspectPhase(sha: Hash, blobs: map<string, Bytes>, p: Phase): Phase
    requires p.MarkRead?
  {
    if p.t.id !in blobs then Finished(UploadMissing)
    else if !Matches(sha, p.t, blobs[p.t.id]) then Finished(UploadIntegrity)
    else MarkInspected(p.user, p.t)
  }

  function ReadPhase(sha: Hash, p: Phase, payload: Bytes): Phase
    requires p.UploadRead?
  {
    if p.t.size > MAX_DEV_BLOB_BYTES || !Matches(sha, p.t, payload) then Finished(Refused)
    else UploadChecked(p.t, payload)
  }

  function EventFor(t: Transfer): Event {
    if t.status.Ready? then Event(READY_EVENT, t.id, t.destination) else Event(COMPLETED_EVENT, t.id, t.source)
  }

  /** The row a call is about to write. */
  function Pending(p: Phase, now: int): Transfer
    requires p.MarkInspected? || p.CompleteRead?
  {
    Restamped(p.t, if p.MarkInspected? then Ready else Completed, now)
  }

  function ContinueStep(sha: Hash, w: World, c: Call, progress: Progress): World
    requires c in w.calls
  {
    var p := w.calls[c];
    match progress
    case Inspect => if p.MarkRead? then Move(w, c, InspectPhase(sha, w.blobs, p)) else w
    case Commit(now) =>
      if p.MarkInspected? || p.CompleteRead? then CommitStep(w, c, p.user, Pending(p, now)) else w
    case Publish =>
      if p.Updated? then Move(w, c, Finished(Answered)).(events := w.events + [EventFor(p.t)]) else w
    case ReadBody(payload) => if p.UploadRead? then Move(w, c, ReadPhase(sha, p, payload)) else w
    case StoreBlob =>
      if p.UploadChecked? then Move(w, c, Finished(Answered)).(blobs := w.blobs[p.t.id := p.payload]) else w
    case Abandon => Move(w, c, Finished(Refused))
  }

  predicate Referenced(transfers: map<string, Record>, device: string) {
    exists id :: id in transfers &&
                 (transfers[id].transfer.source == device || transfers[id].transfer.destination == device)
  }

  function NewRecord(user: string, t: Transfer): Record {
    Record(t.(status := Uploading, uploadURL := "", downloadURL := ""), user)
  }

  function CreateStep(w: World, user: string, t: Transfer): World {
    if t.id in w.transfers || !ValidInput(t) || !OwnsBoth(w.devices, user, t) then w
    else w.(transfers := w.transfers[t.id := NewRecord(user, t)])
  }

  function Step(sha: Hash, w: World, a: Action): World {
    match a
    case AddDevice(id, owner, token) =>
      if id in w.devices then w else w.(devices := w.devices[id := Device(owner, token)])
    case SetPushToken(id, token) =>
      if id in w.devices then w.(devices := w.devices[id := w.devices[id].(pushToken := Some(token))]) else w
    case DeleteDevice(id) => if Referenced(w.transfers, id) then w else w.(devices := w.devices - {id})
    case Create(user, t) => CreateStep(w, user, t)
    case Begin(c, purpose, user, id) =>
      if c in w.calls then w else Move(w, c, BeginPhase(w.transfers, purpose, user, id))
    case Continue(c, progress) => if c in w.calls then ContinueStep(sha, w, c, progress) else w
    case Worker(action) => if action.Enqueue? then w else w.(outbox := Outbox.Step(w.outbox, action))
  }

  function Init(): World {
    World(map[], map[], Outbox.Init(), map[], map[], [], map[])
  }

  function Run(sha: Hash, w: World, acts: seq<Action>): World
    decreases |acts|
  {
    if acts == [] then w else Run(sha, Step(sha, w, acts[0]), acts[1..])
  }

  predicate Downloadable(s: Status) {
    s.Ready? || s.Downloading? || s.Completed?
  }

  /** What a download answers: nothing before the transfer is ready, the stored bytes after. */
  function Download(w: World, user: string, id: string): Option<Bytes> {
    var t := Find(w.transfers, user, id);
    if t.None? || !Downloadable(t.value.status) || id !in w.blobs then None else Some(w.blobs[id])
  }

  // ----- Payloads and identities, in every interleaving -----

  predicate SameIdentity(t: Transfer, u: Transfer) {
    && t.id == u.id && t.source == u.source && t.destination == u.destination && t.kind == u.kind
    && t.displayName == u.displayName && t.contentType == u.contentType
    && t.size == u.size && t.sha256 == u.sha256 && t.createdAt == u.createdAt
  }

  predicate Plain(t: Transfer) {
    t.uploadURL == "" && t.downloadURL == ""
  }

  ghost predicate RowsPlain(transfers: map<string, Record>) {
    forall id :: id in transfers ==> transfers[id].transfer.id == id && Plain(transfers[id].transfer)
  }

  /** A call's copy of a transfer may be stale in status and time, never in anything else. */
  predicate SnapshotOf(transfers: map<string, Record>, t: Transfer) {
    t.id in transfers && SameIdentity(t, transfers[t.id].transfer) && Plain(t)
  }

  predicate NeedsBlob(p: Phase) {
    p.MarkInspected? || p.CompleteRead? || p.Updated?
  }

  ghost predicate PhaseOk(sha: Hash, transfers: map<string, Record>, blobs: map<string, Bytes>, p: Phase) {
    !p.Finished? ==>
      && SnapshotOf(transfers, p.t)
      && (NeedsBlob(p) ==> p.t.id in blobs)
      && (p.UploadChecked? ==> Matches(sha, p.t, p.payload))
  }

  ghost predicate PhasesOk(sha: Hash, w: World) {
    forall c :: c in w.calls ==> PhaseOk(sha, w.transfers, w.blobs, w.calls[c])
  }

  ghost predicate BlobsMatch(sha: Hash, transfers: map<string, Record>, blobs: map<string, Bytes>) {
    forall id :: id in blobs ==> id in transfers && Matches(sha, transfers[id].transfer, blobs[id])
  }

  ghost predicate ReadyHasBlob(transfers: map<string, Record>, blobs: map<string, Bytes>) {
    forall id :: id in transfers && Downloadable(transfers[id].transfer.status) ==> id in blobs
  }

  ghost predicate PayloadInv(sha: Hash, w: World) {
    && RowsPlain(w.transfers) && PhasesOk(sha, w)
    && BlobsMatch(sha, w.transfers, w.blobs) && ReadyHasBlob(w.transfers, w.blobs)
  }

  /** Rows are never removed and keep identity and owner. */
  ghost predicate RowsKept(transfers: map<string, Record>, transfers': map<string, Record>) {
    forall id :: id in transfers ==>
                   && id in transfers'
                   && SameIdentity(transfers[id].transfer, transfers'[id].transfer)
                   && transfers[id].owner == transfers'[id].owner
  }

  /** Phases survive any change that keeps rows and payload keys. */
  lemma PhasesSurvive(sha: Hash, w: World, w': World)
    requires PhasesOk(sha, w) && RowsKept(w.transfers, w'.transfers) && w.blobs.Keys <= w'.blobs.Keys
    requires forall c :: c in w'.calls ==>
                           || (c in w.calls && w'.calls[c] == w.calls[c])
                           || PhaseOk(sha, w'.transfers, w'.blobs, w'.calls[c])
    ensures PhasesOk(sha, w')
  {
    forall c | c in w'.calls ensures PhaseOk(sha, w'.transfers, w'.blobs, w'.calls[c]) {
      if c in w.calls && w'.calls[c] == w.calls[c] {
        assert PhaseOk(sha, w.transfers, w.blobs, w.calls[c]);
      }
    }
  }

  /** A step that only moves one call to a good phase. */
  lemma MoveKeeps(sha: Hash, w: World, c: Call, p: Phase)
    requires PayloadInv(sha, w) && PhaseOk(sha, w.transfers, w.blobs, p)
    ensures PayloadInv(sha, Move(w, c, p)) && RowsKept(w.transfers, Move(w, c, p).transfers)
  {
    PhasesSurvive(sha, w, Move(w, c, p));
  }

  lemma UpdateKeeps(sha: Hash, w: World, t: Transfer)
    requires RowsPlain(w.transfers) && BlobsMatch(sha, w.transfers, w.blobs) && ReadyHasBlob(w.transfers, w.blobs)
    requires SnapshotOf(w.transfers, t) && t.id in w.blobs
    ensures var rows := UpdateRow(w, t).transfers;
            && RowsPlain(rows) && RowsKept(w.transfers, rows)
            && BlobsMatch(sha, rows, w.blobs) && ReadyHasBlob(rows, w.blobs)
  {
  }

  lemma CommitKeeps(sha: Hash, w: World, c: Call, user: string, t: Transfer)
    requires PayloadInv(sha, w) && SnapshotOf(w.transfers, t) && t.id in w.blobs
    ensures var w' := CommitStep(w, c, user, t); PayloadInv(sha, w') && RowsKept(w.transfers, w'.transfers)
  {
    if Find(w.transfers, user, t.id).None? {
      MoveKeeps(sha, w, c, Finished(NotFound));
    } else {
      UpdateKeeps(sha, w, t);
      PhasesSurvive(sha, w, CommitStep(w, c, user, t));
    }
  }

  lemma StoreKeeps(sha: Hash, w: World, c: Call)
    requires PayloadInv(sha, w) && c in w.calls && w.calls[c].UploadChecked?
    ensures var w' := ContinueStep(sha, w, c, StoreBlob); PayloadInv(sha, w') && RowsKept(w.transfers, w'.transfers)
  {
    assert PhaseOk(sha, w.transfers, w.blobs, w.calls[c]);
    PhasesSurvive(sha, w, ContinueStep(sha, w, c, StoreBlob));
  }

  lemma ContinueKeeps(sha: Hash, w: World, c: Call, progress: Progress)
    requires PayloadInv(sha, w) && c in w.calls
    ensures var w' := ContinueStep(sha, w, c, progress); PayloadInv(sha, w') && RowsKept(w.transfers, w'.transfers)
  {
    var p := w.calls[c];
    assert PhaseOk(sha, w.transfers, w.blobs, p);
    match progress
    case Inspect => if p.MarkRead? { MoveKeeps(sha, w, c, InspectPhase(sha, w.blobs, p)); }
    case Commit(now) =>
      if p.MarkInspected? || p.CompleteRead? { CommitKeeps(sha, w, c, p.user, Pending(p, now)); }
    case Publish => if p.Updated? { MoveKeeps(sha, w, c, Finished(Answered)); }
    case ReadBody(payload) => if p.UploadRead? { MoveKeeps(sha, w, c, ReadPhase(sha, p, payload)); }
    case StoreBlob => if p.UploadChecked? { StoreKeeps(sha, w, c); }
    case Abandon => MoveKeeps(sha, w, c, Finished(Refused));
  }

  lemma CreateKeeps(sha: Hash, w: World, user: string, t: Transfer)
    requires PayloadInv(sha, w)
    ensures var w' := CreateStep(w, user, t); PayloadInv(sha, w') && RowsKept(w.transfers, w'.transfers)
  {
    if CreateStep(w, user, t) != w {
      NewRowKeeps(sha, w.transfers, w.blobs, NewRecord(user, t));
    }
    PhasesSurvive(sha, w, CreateStep(w, user, t));
  }

  lemma NewRowKeeps(sha: Hash, transfers: map<string, Record>, blobs: map<string, Bytes>, r: Record)
    requires RowsPlain(transfers) && BlobsMatch(sha, transfers, blobs) && ReadyHasBlob(transfers, blobs)
    requires r.transfer.id !in transfers && Plain(r.transfer) && !Downloadable(r.transfer.status)
    ensures var rows := transfers[r.transfer.id := r];
            && RowsPlain(rows) && RowsKept(transfers, rows)
            && BlobsMatch(sha, rows, blobs) && ReadyHasBlob(rows, blobs)
  {
  }

  /** Device changes and workers touch neither transfers, payloads nor calls. */
  predicate Outside(a: Action) {
    a.AddDevice? || a.SetPushToken? || a.DeleteDevice? || a.Worker?
  }

  lemma OutsideKeeps(sha: Hash, w: World, a: Action)
    requires Outside(a)
    ensures var w' := Step(sha, w, a);
            && w'.transfers == w.transfers && w'.blobs == w.blobs && w'.calls == w.calls
            && w'.events == w.events && w'.firstReady == w.firstReady
  {
  }

  lemma PayloadFramed(sha: Hash, w: World, w': World)
    requires PayloadInv(sha, w) && w'.transfers == w.transfers && w'.blobs == w.blobs && w'.calls == w.calls
    ensures PayloadInv(sha, w') && RowsKept(w.transfers, w'.transfers)
  {
    PhasesSurvive(sha, w, w');
  }

  lemma BeginKeeps(sha: Hash, w: World, c: Call, purpose: Purpose, user: string, id: string)
    requires PayloadInv(sha, w)
    ensures PayloadInv(sha, Move(w, c, BeginPhase(w.transfers, purpose, user, id)))
  {
    MoveKeeps(sha, w, c, BeginPhase(w.transfers, purpose, user, id));
  }

  lemma PayloadStep(sha: Hash, w: World, a: Action)
    requires PayloadInv(sha, w)
    ensures PayloadInv(sha, Step(sha, w, a)) && RowsKept(w.transfers, Step(sha, w, a).transfers)
  {
    if Outside(a) {
      OutsideKeeps(sha, w, a);
      PayloadFramed(sha, w, Step(sha, w, a));
    } else if a.Create? {
      CreateKeeps(sha, w, a.user, a.t);
    } else if a.Begin? {
      if a.c !in w.calls {
        BeginKeeps(sha, w, a.c, a.purpose, a.user, a.id);
      }
    } else if a.c in w.calls {
      ContinueKeeps(sha, w, a.c, a.progress);
    }
  }

  lemma {:induction false} PayloadRun(sha: Hash, w: World, acts: seq<Action>)
    requires PayloadInv(sha, w)
    ensures PayloadInv(sha, Run(sha, w, acts)) && RowsKept(w.transfers, Run(sha, w, acts).transfers)
    decreases |acts|
  {
    if acts != [] {
      PayloadStep(sha, w, acts[0]);
      PayloadRun(sha, Step(sha, w, acts[0]), acts[1..]);
    }
  }

  /**
   In every interleaving a transfer that somebody finds can be downloaded by them exactly while it is ready,
   downloading or completed, and the download answers bytes of the declared size and checksum.
   */
  lemma DownloadsMatchDeclaration(sha: Hash, acts: seq<Action>, user: string, id: string)
    requires Find(Run(sha, Init(), acts).transfers, user, id).Some?
    ensures var w := Run(sha, Init(), acts);
            var t, answer := Find(w.transfers, user, id).value, Download(w, user, id);
            && (answer.Some? <==> t.status in {Ready, Downloading, Completed})
            && (answer.Some? ==>
                  |answer.value| == t.size && Encodings.Lower(sha(answer.value)) == Encodings.Lower(t.sha256))
  {
    PayloadRun(sha, Init(), acts);
  }

  /** Identity, endpoints, kind, names, size, checksum and owner never change, and no signed URL is stored. */
  lemma IdentityNeverChanges(sha: Hash, before: seq<Action>, after: seq<Action>, id: string)
    requires id in Run(sha, Init(), before).transfers
    ensures var w := Run(sha, Init(), before);
            var w' := Run(sha, w, after);
            && id in w'.transfers
            && SameIdentity(w.transfers[id].transfer, w'.transfers[id].transfer)
            && w'.transfers[id].owner == w.transfers[id].owner
            && Plain(w'.transfers[id].transfer)
  {
    PayloadRun(sha, Init(), before);
    PayloadRun(sha, Run(sha, Init(), before), after);
  }

  /** The two repositories agree on every write a call can have pending, however stale. */
  lemma RepositoriesAgree(sha: Hash, acts: seq<Action>, c: Call, now: int)
    requires var w := Run(sha, Init(), acts); c in w.calls && (w.calls[c].MarkInspected? || w.calls[c].CompleteRead?)
    ensures var w := Run(sha, Init(), acts);
            var t := Pending(w.calls[c], now);
            t.id in w.transfers && PostgresUpdate(w.transfers[t.id], t) == MemoryUpdate(w.transfers[t.id], t)
  {
    PayloadRun(sha, Init(), acts);
    var w := Run(sha, Init(), acts);
    assert PhaseOk(sha, w.transfers, w.blobs, w.calls[c]);
  }
}
