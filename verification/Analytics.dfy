/** Ingest of status events from one ordered log into a deduplicated table, with crashes and redelivery. */
module Analytics {
  import opened Options

  // ----- Events and rows -----

  /**
   The event time once read: absent or malformed text, no time zone, or the UTC day; the last two kinds raise
   errors nobody catches.
   */
  datatype EventTime = Unusable | Naive | Day(utc: string) | NotText | BeyondCalendar

  /** A decoded event; `None` stands for a missing field, and for a status that is not text. */
  datatype Event = Event(status: Option<string>, eventId: Option<string>, transferId: Option<string>, time: EventTime)

  datatype Message = Undecodable | Decoded(event: Event)

  datatype Row = Row(eventId: string, transferId: string, day: string, status: string)

  datatype Transformed = Good(row: Row) | Rejected | Uncaught

  const VALID: set<string> := {"created", "queued", "processing", "completed", "failed", "cancelled"}

  predicate IsSpace(c: char) {
    '\t' <= c <= '\r' || '\U{1C}' <= c <= ' ' || c in "\U{85}\U{A0}\U{1680}\U{2028}\U{2029}\U{202F}\U{205F}\U{3000}"
    || '\U{2000}' <= c <= '\U{200A}'
  }

  predicate Blank(s: string) {
    forall i :: 0 <= i < |s| ==> IsSpace(s[i])
  }

  function Transform(e: Event): Transformed {
    if e.status.None? || e.status.value !in VALID then Rejected
    else if e.eventId.None? || Blank(e.eventId.value) then Rejected
    else if e.transferId.None? || Blank(e.transferId.value) then Rejected
    else
      match e.time
      case Unusable => Rejected
      case Naive => Rejected
      case NotText => Uncaught
      case BeyondCalendar => Uncaught
      case Day(utc) => Good(Row(e.eventId.value, e.transferId.value, utc, e.status.value))
  }

  // ----- The table -----

  predicate HasId(rows: seq<Row>, id: string) {
    exists i :: 0 <= i < |rows| && rows[i].eventId == id
  }

  /** Insert unless the event id is there. */
  function Insert(rows: seq<Row>, r: Row): seq<Row> {
    if HasId(rows, r.eventId) then rows else rows + [r]
  }

  /** One pass over a batch of events; what is not a good row leaves the table as it is. */
  function InsertAll(rows: seq<Row>, events: seq<Event>): seq<Row> {
    if events == [] then rows
    else
      var before := InsertAll(rows, events[..|events| - 1]);
      var t := Transform(events[|events| - 1]);
      if t.Good? then Insert(before, t.row) else before
  }

  function RejectedIn(events: seq<Event>): nat {
    if events == [] then 0
    else RejectedIn(events[..|events| - 1]) + if Transform(events[|events| - 1]).Rejected? then 1 else 0
  }

  predicate NoneUncaught(events: seq<Event>) {
    forall i :: 0 <= i < |events| ==> !Transform(events[i]).Uncaught?
  }

  datatype Loaded = Loaded(inserted: nat, rejected: nat) | Raised

  /** One connection: the table as stored, and as this connection sees it before it commits. */
  class Database {
    var stored: seq<Row>
    var seen: seq<Row>

    constructor ()
      ensures stored == [] && seen == []
    {
      stored, seen := [], [];
    }

    method InsertOrIgnore(r: Row) returns (rowCount: nat)
      modifies this
      ensures seen == Insert(old(seen), r) && stored == old(stored)
      ensures rowCount == |seen| - |old(seen)|
    {
      rowCount := 0;
      if !HasId(seen, r.eventId) {
        seen := seen + [r];
        rowCount := 1;
      }
    }

    method Commit()
      modifies this
      ensures stored == seen == old(seen)
    {
      stored := seen;
    }

    method Rollback()
      modifies this
      ensures seen == stored == old(stored)
    {
      seen := stored;
    }
  }

  /** Loads a batch and commits it; an error that is not caught leaves the batch uncommitted. */
  method Load(db: Database, events: seq<Event>) returns (result: Loaded)
    requires db.seen == db.stored
    modifies db
    ensures result.Raised? <==> !NoneUncaught(events)
    ensures result.Raised? ==> db.stored == old(db.stored)
    ensures result.Loaded? ==>
              db.stored == db.seen == InsertAll(old(db.stored), events)
              && result.inserted == |db.stored| - |old(db.stored)| && result.rejected == RejectedIn(events)
  {
    var inserted, rejected, i := 0, 0, 0;
    while i < |events|
      invariant 0 <= i <= |events|
      invariant db.stored == old(db.stored) && db.seen == InsertAll(old(db.stored), events[..i])
      invariant inserted == |db.seen| - |db.stored| && rejected == RejectedIn(events[..i])
      invariant NoneUncaught(events[..i])
    {
      assert events[..i + 1][..i] == events[..i];
      var t := Transform(events[i]);
      if t.Uncaught? {
        assert !NoneUncaught(events);
        return Raised;
      }
      if t.Good? {
        var n := db.InsertOrIgnore(t.row);
        inserted := inserted + n;
      } else {
        rejected := rejected + 1;
      }
      i := i + 1;
    }
    assert events[..i] == events;
    db.Commit();
    return Loaded.Loaded(inserted, rejected);
  }

  /** A file of events in one transaction: an error that is not caught rolls it back. */
  method Ingest(db: Database, events: seq<Event>) returns (result: Loaded)
    requires db.seen == db.stored
    modifies db
    ensures db.seen == db.stored
    ensures db.stored == if NoneUncaught(events) then InsertAll(old(db.stored), events) else old(db.stored)
    ensures result.Raised? <==> !NoneUncaught(events)
  {
    result := Load(db, events);
    if result.Raised? {
      db.Rollback();
    }
  }

  // ----- What a pass over the log means -----

  function Read(m: Message): Transformed {
    if m.Undecodable? then Rejected else Transform(m.event)
  }

  predicate AllGood(log: seq<Message>) {
    forall i :: 0 <= i < |log| ==> Read(log[i]).Good?
  }

  /** One uninterrupted pass over a log of good messages: the first message with an event id wins. */
  function Pass(log: seq<Message>): seq<Row>
    requires AllGood(log)
  {
    if log == [] then [] else Insert(Pass(log[..|log| - 1]), Read(log[|log| - 1]).row)
  }

  ghost predicate FirstWith(log: seq<Message>, i: nat)
    requires AllGood(log) && i < |log|
  {
    forall j :: 0 <= j < i ==> Read(log[j]).row.eventId != Read(log[i]).row.eventId
  }

  predicate Distinct(rows: seq<Row>) {
    forall i, j :: 0 <= i < j < |rows| ==> rows[i].eventId != rows[j].eventId
  }

  function Ids(log: seq<Message>): set<string>
    requires AllGood(log)
  {
    set i | 0 <= i < |log| :: Read(log[i]).row.eventId
  }

  function RowIds(rows: seq<Row>): set<string> {
    set i | 0 <= i < |rows| :: rows[i].eventId
  }

  lemma RowIdsAppend(rows: seq<Row>, r: Row)
    ensures RowIds(rows + [r]) == RowIds(rows) + {r.eventId}
  {
    var more := rows + [r];
    assert forall i :: 0 <= i < |rows| ==> more[i] == rows[i];
    assert more[|rows|] == r;
    forall id | id in RowIds(rows) + {r.eventId} ensures id in RowIds(more) {
      if id in RowIds(rows) {
        var i :| 0 <= i < |rows| && rows[i].eventId == id;
        assert more[i].eventId == id;
      } else {
        assert more[|rows|].eventId == id;
      }
    }
  }

  lemma HasIdIsMember(rows: seq<Row>, id: string)
    ensures HasId(rows, id) <==> id in RowIds(rows)
  {
  }

  lemma IdsAppend(log: seq<Message>)
    requires AllGood(log) && log != []
    ensures AllGood(log[..|log| - 1])
    ensures Ids(log) == Ids(log[..|log| - 1]) + {Read(log[|log| - 1]).row.eventId}
  {
    assert forall i :: 0 <= i < |log| - 1 ==> log[..|log| - 1][i] == log[i];
  }

  lemma {:induction false} PassHasIds(log: seq<Message>)
    requires AllGood(log)
    ensures Distinct(Pass(log)) && RowIds(Pass(log)) == Ids(log)
  {
    if log != [] {
      var n := |log| - 1;
      var before, r := Pass(log[..n]), Read(log[n]).row;
      PassHasIds(log[..n]);
      IdsAppend(log);
      HasIdIsMember(before, r.eventId);
      RowIdsAppend(before, r);
    }
  }

  ghost predicate IsFirst(log: seq<Message>, r: Row)
    requires AllGood(log)
  {
    exists i :: 0 <= i < |log| && FirstWith(log, i) && Read(log[i]).row == r
  }

  lemma FirstWithPrefix(log: seq<Message>, i: nat)
    requires AllGood(log) && i + 1 < |log|
    ensures AllGood(log[..|log| - 1])
    ensures FirstWith(log[..|log| - 1], i) <==> FirstWith(log, i)
  {
    assert forall j :: 0 <= j < |log| - 1 ==> log[..|log| - 1][j] == log[j];
  }

  lemma IsFirstLonger(log: seq<Message>, r: Row)
    requires AllGood(log) && log != [] && AllGood(log[..|log| - 1])
    requires IsFirst(log[..|log| - 1], r)
    ensures IsFirst(log, r)
  {
    var i :| 0 <= i < |log| - 1 && FirstWith(log[..|log| - 1], i) && Read(log[..|log| - 1][i]).row == r;
    FirstWithPrefix(log, i);
    assert log[..|log| - 1][i] == log[i];
  }

  lemma LastIsFirst(log: seq<Message>)
    requires AllGood(log) && log != [] && AllGood(log[..|log| - 1])
    ensures FirstWith(log, |log| - 1) <==> Read(log[|log| - 1]).row.eventId !in Ids(log[..|log| - 1])
  {
    assert forall j :: 0 <= j < |log| - 1 ==> log[..|log| - 1][j] == log[j];
  }

  lemma IsFirstShorter(log: seq<Message>, r: Row)
    requires AllGood(log) && log != [] && AllGood(log[..|log| - 1])
    requires IsFirst(log, r)
    ensures IsFirst(log[..|log| - 1], r) || (FirstWith(log, |log| - 1) && Read(log[|log| - 1]).row == r)
  {
    var i :| 0 <= i < |log| && FirstWith(log, i) && Read(log[i]).row == r;
    if i < |log| - 1 {
      FirstWithPrefix(log, i);
      assert log[..|log| - 1][i] == log[i];
    }
  }

  /** The table holds exactly the rows of the messages that were first with their event id. */
  lemma {:induction false} FirstWins(log: seq<Message>, r: Row)
    requires AllGood(log)
    ensures r in Pass(log) <==> IsFirst(log, r)
  {
    if log != [] {
      var n := |log| - 1;
      FirstWins(log[..n], r);
      PassHasIds(log[..n]);
      HasIdIsMember(Pass(log[..n]), Read(log[n]).row.eventId);
      LastIsFirst(log);
      if IsFirst(log[..n], r) {
        IsFirstLonger(log, r);
      }
      if IsFirst(log, r) {
        IsFirstShorter(log, r);
      }
    }
  }

  lemma ReplayChangesNothing(log: seq<Message>, i: nat)
    requires AllGood(log) && i < |log|
    ensures Insert(Pass(log), Read(log[i]).row) == Pass(log)
  {
    PassHasIds(log);
    assert Read(log[i]).row.eventId in Ids(log);
    HasIdIsMember(Pass(log), Read(log[i]).row.eventId);
  }

  // ----- Runs with crashes -----

  datatype Stage = Down | Waiting | Fetched | Stored

  /**
   The stored table, the group's committed offset, and the consumer: its position and what it did with that
   message.
   */
  datatype State = State(rows: seq<Row>, committed: nat, position: nat, stage: Stage)

  /** `OffsetLost` is a broker that forgot the group's offset: the next consumer starts at the earliest message. */
  datatype Action = Start | Deliver | StoreRow | CommitOffset | Crash | OffsetLost

  const INITIAL := State([], 0, 0, Down)

  function Step(log: seq<Message>, s: State, a: Action): State {
    match a
    case Start => if s.stage.Down? then s.(position := s.committed, stage := Waiting) else s
    case Deliver =>
      if !s.stage.Waiting? || s.position >= |log| then s
      else s.(stage := if Read(log[s.position]).Good? then Fetched else Down)
    case StoreRow =>
      if s.stage.Fetched? && s.position < |log| && Read(log[s.position]).Good?
      then s.(rows := Insert(s.rows, Read(log[s.position]).row), stage := Stored)
      else s
    case CommitOffset =>
      if s.stage.Stored? then s.(committed := s.position + 1, position := s.position + 1, stage := Waiting) else s
    case Crash => s.(stage := Down)
    case OffsetLost => s.(committed := 0)
  }

  function Run(log: seq<Message>, s: State, actions: seq<Action>): State {
    if actions == [] then s else Step(log, Run(log, s, actions[..|actions| - 1]), actions[|actions| - 1])
  }

  /** The table is the pass over the first `high` messages, and nobody is beyond them. */
  ghost predicate Inv(log: seq<Message>, s: State, high: nat) {
    high <= |log| && AllGood(log[..high]) && s.rows == Pass(log[..high])
    && s.committed <= high
    && (!s.stage.Down? ==> s.position <= high)
    && (s.stage.Fetched? ==> s.position < |log| && Read(log[s.position]).Good?)
    && (s.stage.Stored? ==> s.position < high)
  }

  /** Without lost offsets the table is at most one message ahead of the committed offset. */
  predicate Close(s: State, high: nat) {
    high <= s.committed + 1 && (!s.stage.Down? ==> s.position == s.committed)
  }

  lemma StepKeeps(log: seq<Message>, s: State, a: Action, high: nat) returns (high': nat)
    requires Inv(log, s, high)
    ensures Inv(log, Step(log, s, a), high') && high <= high'
    ensures Close(s, high) && a != OffsetLost ==> Close(Step(log, s, a), high')
    ensures s.rows <= Step(log, s, a).rows
  {
    high' := high;
    if a.StoreRow? && s.stage.Fetched? {
      if s.position < high {
        assert log[..high][s.position] == log[s.position];
        ReplayChangesNothing(log[..high], s.position);
      } else {
        high' := high + 1;
        assert log[..high + 1][..high] == log[..high];
      }
    }
  }

  lemma {:induction false} RunKeeps(log: seq<Message>, actions: seq<Action>) returns (high: nat)
    ensures Inv(log, Run(log, INITIAL, actions), high)
    ensures OffsetLost !in actions ==> Close(Run(log, INITIAL, actions), high)
  {
    if actions == [] {
      high := 0;
    } else {
      var n := |actions| - 1;
      var before := RunKeeps(log, actions[..n]);
      high := StepKeeps(log, Run(log, INITIAL, actions[..n]), actions[n], before);
    }
  }

  /**
   At-least-once delivery, exactly-once effect: after any schedule of crashes, redeliveries and lost
   offsets the table is one uninterrupted first-wins pass over a prefix that reaches at least the committed
   offset; if no offset was lost, exactly that far or one message further.
   */
  lemma ExactlyOnceEffect(log: seq<Message>, actions: seq<Action>)
    ensures var s := Run(log, INITIAL, actions);
            exists high :: s.committed <= high <= |log| && AllGood(log[..high]) && s.rows == Pass(log[..high])
                           && (OffsetLost !in actions ==> high <= s.committed + 1)
  {
    var high := RunKeeps(log, actions);
  }

  /** The committed offset never passes a message that is rejected or cannot be read. */
  lemma HaltsAtBadMessage(log: seq<Message>, actions: seq<Action>, bad: nat)
    requires bad < |log| && !Read(log[bad]).Good?
    ensures Run(log, INITIAL, actions).committed <= bad
  {
    var high := RunKeeps(log, actions);
    assert forall i :: 0 <= i < high ==> log[..high][i] == log[i];
  }

  lemma PrefixOfPrefix(a: seq<Row>, b: seq<Row>, c: seq<Row>)
    requires a <= b <= c
    ensures a <= c
  {
  }

  /** Rows are only ever appended: whatever happens next, what is stored stays, in its place. */
  lemma {:induction false} StoredStays(log: seq<Message>, actions: seq<Action>, k: nat)
    requires k <= |actions|
    ensures Run(log, INITIAL, actions[..k]).rows <= Run(log, INITIAL, actions).rows
  {
    if k == |actions| {
      assert actions[..k] == actions;
    } else {
      var n := |actions| - 1;
      assert actions[..n][..k] == actions[..k];
      StoredStays(log, actions[..n], k);
      var high := RunKeeps(log, actions[..n]);
      var high' := StepKeeps(log, Run(log, INITIAL, actions[..n]), actions[n], high);
      PrefixOfPrefix(Run(log, INITIAL, actions[..k]).rows, Run(log, INITIAL, actions[..n]).rows,
                     Run(log, INITIAL, actions).rows);
    }
  }

  // ----- The daily view -----

  type Group = (string, string)

  function GroupOf(r: Row): Group {
    (r.day, r.status)
  }

  function Daily(rows: seq<Row>, g: Group): nat {
    if rows == [] then 0
    else Daily(rows[..|rows| - 1], g) + if GroupOf(rows[|rows| - 1]) == g then 1 else 0
  }

  /** The counts of the listed groups, added up. */
  function DailyTotal(rows: seq<Row>, groups: seq<Group>): nat {
    if groups == [] then 0 else Daily(rows, groups[0]) + DailyTotal(rows, groups[1..])
  }

  /** A listing of the view: each group once, and every row in one of them. */
  ghost predicate Lists(groups: seq<Group>, rows: seq<Row>) {
    (forall i, j :: 0 <= i < j < |groups| ==> groups[i] != groups[j])
    && forall k :: 0 <= k < |rows| ==> GroupOf(rows[k]) in groups
  }

  lemma {:induction false} OneMoreRow(rows: seq<Row>, r: Row, groups: seq<Group>)
    requires Lists(groups, [])
    ensures DailyTotal(rows + [r], groups) == DailyTotal(rows, groups) + if GroupOf(r) in groups then 1 else 0
    decreases |groups|
  {
    assert (rows + [r])[..|rows|] == rows;
    if groups != [] {
      OneMoreRow(rows, r, groups[1..]);
      assert GroupOf(r) in groups <==> GroupOf(r) == groups[0] || GroupOf(r) in groups[1..];
    }
  }

  lemma {:induction false} NoRows(groups: seq<Group>)
    ensures DailyTotal([], groups) == 0
  {
    if groups != [] {
      NoRows(groups[1..]);
    }
  }

  lemma {:induction false} TotalIsRows(rows: seq<Row>, groups: seq<Group>)
    requires Lists(groups, rows)
    ensures DailyTotal(rows, groups) == |rows|
  {
    if rows == [] {
      NoRows(groups);
    } else {
      var n := |rows| - 1;
      assert rows[..n] + [rows[n]] == rows;
      TotalIsRows(rows[..n], groups);
      OneMoreRow(rows[..n], rows[n], groups);
    }
  }

  lemma {:induction false} DistinctCount(rows: seq<Row>)
    requires Distinct(rows)
    ensures |RowIds(rows)| == |rows|
  {
    if rows != [] {
      var n := |rows| - 1;
      DistinctCount(rows[..n]);
      RowIdsAppend(rows[..n], rows[n]);
      assert rows[..n] + [rows[n]] == rows;
      HasIdIsMember(rows[..n], rows[n].eventId);
    }
  }

  /** However the daily view is listed, its counts add up to the number of distinct event ids ingested. */
  lemma DailyCountsEvents(log: seq<Message>, groups: seq<Group>)
    requires AllGood(log) && Lists(groups, Pass(log))
    ensures DailyTotal(Pass(log), groups) == |Ids(log)|
  {
    PassHasIds(log);
    DistinctCount(Pass(log));
    TotalIsRows(Pass(log), groups);
  }

  /** The same of the table after any schedule: its daily counts add up to the distinct ids of the prefix it holds. */
  lemma StoredDailyCounts(log: seq<Message>, actions: seq<Action>, groups: seq<Group>)
    requires Lists(groups, Run(log, INITIAL, actions).rows)
    ensures var s := Run(log, INITIAL, actions);
            exists high :: s.committed <= high <= |log| && AllGood(log[..high]) && s.rows == Pass(log[..high])
                           && DailyTotal(s.rows, groups) == |Ids(log[..high])|
                           && (OffsetLost !in actions ==> high <= s.committed + 1)
  {
    var high := RunKeeps(log, actions);
    DailyCountsEvents(log[..high], groups);
  }

  // ----- The consumer loop -----

  class Consumer {
    const log: seq<Message>
    var committed: nat
    var position: nat

    constructor (log: seq<Message>, committed: nat)
      ensures this.log == log && this.committed == committed && position == committed
    {
      this.log := log;
      this.committed, position := committed, committed;
    }

    /** The message at the position, which moves on. */
    method Poll() returns (m: Message)
      requires position < |log|
      modifies this
      ensures m == log[old(position)] && position == old(position) + 1 && committed == old(committed)
    {
      m := log[position];
      position := position + 1;
    }

    method Commit()
      modifies this
      ensures committed == position == old(position)
    {
      committed := position;
    }
  }

  /** What one delivered message does when nothing goes wrong. */
  function Rounds(n: nat): seq<Action> {
    if n == 0 then [] else Rounds(n - 1) + [Deliver, StoreRow, CommitOffset]
  }

  lemma RunAppend(log: seq<Message>, s: State, actions: seq<Action>, a: Action)
    ensures Run(log, s, actions + [a]) == Step(log, Run(log, s, actions), a)
  {
    assert (actions + [a])[..|actions|] == actions;
  }

  lemma OneMoreRound(log: seq<Message>, s: State, n: nat)
    ensures Run(log, s, Rounds(n + 1))
            == Step(log, Step(log, Step(log, Run(log, s, Rounds(n)), Deliver), StoreRow), CommitOffset)
  {
    RunAppend(log, s, Rounds(n), Deliver);
    RunAppend(log, s, Rounds(n) + [Deliver], StoreRow);
    RunAppend(log, s, Rounds(n) + [Deliver] + [StoreRow], CommitOffset);
    assert Rounds(n + 1) == Rounds(n) + [Deliver] + [StoreRow] + [CommitOffset];
  }

  lemma RoundCommits(log: seq<Message>, rows: seq<Row>, at: nat)
    requires at < |log| && Read(log[at]).Good?
    ensures Step(log, Step(log, Step(log, State(rows, at, at, Waiting), Deliver), StoreRow), CommitOffset)
            == State(Insert(rows, Read(log[at]).row), at + 1, at + 1, Waiting)
  {
  }

  lemma LoadOne(rows: seq<Row>, e: Event)
    ensures RejectedIn([e]) == if Transform(e).Rejected? then 1 else 0
    ensures InsertAll(rows, [e]) == if Transform(e).Good? then Insert(rows, Transform(e).row) else rows
    ensures NoneUncaught([e]) <==> !Transform(e).Uncaught?
  {
    assert [e][..0] == [];
    assert [e][0] == e;
  }

  /** The state of a running consumer between two messages. */
  function Between(rows: seq<Row>, committed: nat): State {
    State(rows, committed, committed, Waiting)
  }

  /** New rows after `n` rounds. */
  function Gained(log: seq<Message>, s: State, n: nat): int {
    |Run(log, s, Rounds(n)).rows| - |s.rows|
  }

  datatype Outcome = Accepted(count: int) | Halted | Died

  datatype Handled = Inserted(count: nat) | Refused(caught: bool)

  /** One delivered message: loaded, stored, and its offset committed, unless it is bad. */
  method Handle(consumer: Consumer, db: Database) returns (handled: Handled)
    requires consumer.position == consumer.committed < |consumer.log| && db.seen == db.stored
    modifies consumer, db
    ensures handled.Inserted? <==> Read(consumer.log[old(consumer.committed)]).Good?
    ensures handled == Refused(false) <==> Read(consumer.log[old(consumer.committed)]).Uncaught?
    ensures handled.Inserted? ==>
              consumer.position == consumer.committed == old(consumer.committed) + 1
              && db.seen == db.stored == Insert(old(db.stored), Read(consumer.log[old(consumer.committed)]).row)
              && handled.count == |db.stored| - |old(db.stored)|
    ensures handled.Refused? ==> consumer.committed == old(consumer.committed) && db.stored == old(db.stored)
  {
    var m := consumer.Poll();
    if m.Undecodable? {
      return Refused(true);
    }
    LoadOne(db.stored, m.event);
    var result := Load(db, [m.event]);
    if result.Raised? {
      return Refused(false);
    }
    if result.rejected > 0 {
      return Refused(true);
    }
    consumer.Commit();
    return Inserted(result.inserted);
  }

  /**
   Until the limit or the end of the log: each message is loaded, committed to the table, then its offset is
   committed. The state is that of whole rounds of the run above; a bad message ends it with its offset uncommitted.
   */
  method Consume(consumer: Consumer, db: Database, limit: int) returns (outcome: Outcome, ghost rounds: nat)
    requires consumer.position == consumer.committed <= |consumer.log| && db.seen == db.stored
    modifies consumer, db
    ensures consumer.committed == old(consumer.committed) + rounds <= |consumer.log|
    ensures Between(db.stored, consumer.committed)
            == Run(consumer.log, Between(old(db.stored), old(consumer.committed)), Rounds(rounds))
    ensures outcome.Accepted? ==> outcome.count == |db.stored| - |old(db.stored)|
    ensures outcome.Accepted? ==> outcome.count >= limit || consumer.committed == |consumer.log|
    ensures rounds > 1 ==>
              Gained(consumer.log, Between(old(db.stored), old(consumer.committed)), rounds - 1) < limit
    ensures !outcome.Accepted? ==> consumer.committed < |consumer.log| && !Read(consumer.log[consumer.committed]).Good?
    ensures outcome.Died? <==> !outcome.Accepted? && Read(consumer.log[consumer.committed]).Uncaught?
  {
    ghost var start := Between(db.stored, consumer.committed);
    var accepted := 0;
    rounds := 0;
    while consumer.position < |consumer.log|
      invariant consumer.position == consumer.committed == start.committed + rounds <= |consumer.log|
      invariant db.seen == db.stored && accepted == |db.stored| - |start.rows|
      invariant Between(db.stored, consumer.committed) == Run(consumer.log, start, Rounds(rounds))
      invariant rounds > 0 ==> accepted < limit
      invariant rounds > 1 ==> Gained(consumer.log, start, rounds - 1) < limit
      decreases |consumer.log| - consumer.position
    {
      ghost var at := consumer.position;
      var handled := Handle(consumer, db);
      if handled.Refused? {
        outcome := if handled.caught then Halted else Died;
        return;
      }
      OneMoreRound(consumer.log, start, rounds);
      RoundCommits(consumer.log, Run(consumer.log, start, Rounds(rounds)).rows, at);
      accepted := accepted + handled.count;
      rounds := rounds + 1;
      if accepted >= limit {
        break;
      }
    }
    outcome := Accepted(accepted);
  }
}
