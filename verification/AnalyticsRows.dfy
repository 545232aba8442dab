/** What the table holds, told from the fields of the messages: no word here about how an event is read. */
module AnalyticsRows {
  import opened Options
  import opened Analytics

  /** Every character Python counts as white space. */
  const WHITE := "\t\n\U{B}\U{C}\r\U{1C}\U{1D}\U{1E}\U{1F} \U{85}\U{A0}\U{1680}\U{2000}\U{2001}\U{2002}\U{2003}\U{2004}"
                 + "\U{2005}\U{2006}\U{2007}\U{2008}\U{2009}\U{200A}\U{2028}\U{2029}\U{202F}\U{205F}\U{3000}"

  predicate HasText(id: Option<string>) {
    id.Some? && exists i :: 0 <= i < |id.value| && id.value[i] !in WHITE
  }

  predicate KnownStatus(status: Option<string>) {
    status in {Some("created"), Some("queued"), Some("processing"), Some("completed"), Some("failed"),
               Some("cancelled")}
  }

  predicate Named(e: Event) {
    KnownStatus(e.status) && HasText(e.eventId) && HasText(e.transferId)
  }

  lemma WhiteIsSpace(c: char)
    ensures c in WHITE <==> IsSpace(c)
  {
  }

  lemma HasTextIff(id: Option<string>)
    ensures HasText(id) <==> id.Some? && !Blank(id.value)
  {
    if id.Some? {
      forall i | 0 <= i < |id.value| ensures id.value[i] in WHITE <==> IsSpace(id.value[i]) {
        WhiteIsSpace(id.value[i]);
      }
    }
  }

  /** What happens to a message: a decoded event of a UTC day with status and ids is accepted, and no other message. */
  predicate Accepted(m: Message) {
    m.Decoded? && Named(m.event) && m.event.time.Day?
  }

  predicate Fatal(m: Message) {
    m.Decoded? && Named(m.event) && (m.event.time.NotText? || m.event.time.BeyondCalendar?)
  }

  lemma ReadIff(m: Message)
    ensures Read(m).Good? <==> Accepted(m)
    ensures Read(m).Uncaught? <==> Fatal(m)
    ensures Accepted(m) ==> Read(m).row == Row(m.event.eventId.value, m.event.transferId.value, m.event.time.utc,
                                               m.event.status.value)
  {
    if m.Decoded? {
      HasTextIff(m.event.eventId);
      HasTextIff(m.event.transferId);
    }
  }

  ghost predicate AllAccepted(log: seq<Message>) {
    forall i :: 0 <= i < |log| ==> Accepted(log[i])
  }

  /** The row tells transfer, day and status of the first message with its event id. */
  ghost predicate TellsFirst(log: seq<Message>, r: Row) {
    exists i :: 0 <= i < |log| && Accepted(log[i])
                && r.eventId == log[i].event.eventId.value && r.transferId == log[i].event.transferId.value
                && r.day == log[i].event.time.utc && r.status == log[i].event.status.value
                && forall j :: 0 <= j < i && Accepted(log[j]) ==> log[j].event.eventId.value != r.eventId
  }

  /** One row for each event id of the messages, which tells the first message with that id; and no other row. */
  ghost predicate TellsEvents(rows: seq<Row>, log: seq<Message>) {
    && Distinct(rows)
    && (forall k :: 0 <= k < |rows| ==> TellsFirst(log, rows[k]))
    && forall i :: 0 <= i < |log| && Accepted(log[i]) ==> HasId(rows, log[i].event.eventId.value)
  }

  lemma AllReadIff(log: seq<Message>)
    ensures AllGood(log) <==> AllAccepted(log)
    ensures AllGood(log) ==> forall i :: 0 <= i < |log| ==>
              Read(log[i]).row == Row(log[i].event.eventId.value, log[i].event.transferId.value,
                                      log[i].event.time.utc, log[i].event.status.value)
  {
    forall i | 0 <= i < |log| ensures Read(log[i]).Good? <==> Accepted(log[i]) {
      ReadIff(log[i]);
    }
    if AllGood(log) {
      forall i | 0 <= i < |log|
        ensures Read(log[i]).row == Row(log[i].event.eventId.value, log[i].event.transferId.value,
                                        log[i].event.time.utc, log[i].event.status.value)
      {
        ReadIff(log[i]);
      }
    }
  }

  lemma PassTells(log: seq<Message>)
    requires AllGood(log)
    ensures TellsEvents(Pass(log), log)
  {
    AllReadIff(log);
    PassHasIds(log);
    var rows := Pass(log);
    forall k | 0 <= k < |rows| ensures TellsFirst(log, rows[k]) {
      assert rows[k] in rows;
      FirstWins(log, rows[k]);
      var i :| 0 <= i < |log| && FirstWith(log, i) && Read(log[i]).row == rows[k];
    }
    forall i | 0 <= i < |log| && Accepted(log[i])
      ensures HasId(rows, log[i].event.eventId.value)
    {
      assert Read(log[i]).row.eventId in Ids(log);
      assert log[i].event.eventId.value in RowIds(rows);
    }
  }

  /**
   After any schedule of crashes, redeliveries and lost offsets the table has exactly one row for each event id of
   the first `high` messages, all accepted, and the row tells the first message with that id.
   */
  lemma StoredRowsTellEvents(log: seq<Message>, actions: seq<Action>)
    ensures var s := Run(log, INITIAL, actions);
            exists high :: s.committed <= high <= |log| && AllAccepted(log[..high]) && TellsEvents(s.rows, log[..high])
                           && (OffsetLost !in actions ==> high <= s.committed + 1)
  {
    var high := RunKeeps(log, actions);
    AllReadIff(log[..high]);
    PassTells(log[..high]);
  }

  // ----- Nothing accepted is left behind -----

  /** A new consumer that is not disturbed for as many messages as the log has. */
  function Recovery(log: seq<Message>): seq<Action> {
    [Crash, Start] + Rounds(|log|)
  }

  /** `stop` is the first message that is not accepted, or the end of the log. */
  ghost predicate StopsAt(log: seq<Message>, stop: nat) {
    && stop <= |log| && AllAccepted(log[..stop])
    && (stop < |log| ==> !Accepted(log[stop]))
  }

  lemma {:induction false} RunConcat(log: seq<Message>, s: State, a: seq<Action>, b: seq<Action>)
    ensures Run(log, s, a + b) == Run(log, Run(log, s, a), b)
  {
    if b == [] {
      assert a + b == a;
    } else {
      var n := |b| - 1;
      RunConcat(log, s, a, b[..n]);
      assert (a + b)[..|a + b| - 1] == a + b[..n];
    }
  }

  /** One round of a running consumer: the next message is stored and committed, or it ends the consumer. */
  lemma OneRound(log: seq<Message>, s: State)
    requires s.stage.Waiting? && s.position == s.committed
    ensures var s' := Step(log, Step(log, Step(log, s, Deliver), StoreRow), CommitOffset);
            if s.committed >= |log| then s' == s
            else if Accepted(log[s.committed])
            then s'.stage.Waiting? && s'.committed == s'.position == s.committed + 1
            else s'.stage.Down? && s'.committed == s.committed
  {
    if s.committed < |log| {
      ReadIff(log[s.committed]);
    }
  }

  lemma DownStays(log: seq<Message>, s: State)
    requires s.stage.Down?
    ensures Step(log, Step(log, Step(log, s, Deliver), StoreRow), CommitOffset) == s
  {
  }

  /** Rounds commit message after message until the first one that is not accepted. */
  lemma {:induction false} RoundsReach(log: seq<Message>, s: State, n: nat, stop: nat)
    requires StopsAt(log, stop) && s.stage.Waiting? && s.position == s.committed <= stop
    ensures Run(log, s, Rounds(n)).committed == if s.committed + n < stop then s.committed + n else stop
    ensures var end := Run(log, s, Rounds(n));
            if end.stage.Waiting? then end.position == end.committed else end.stage.Down? && end.committed == stop
  {
    if n > 0 {
      RoundsReach(log, s, n - 1, stop);
      OneMoreRound(log, s, n - 1);
      var before := Run(log, s, Rounds(n - 1));
      if before.stage.Down? {
        DownStays(log, before);
      } else {
        OneRound(log, before);
        if before.committed < stop {
          assert log[..stop][before.committed] == log[before.committed];
        }
      }
    }
  }

  lemma Restarted(log: seq<Message>, actions: seq<Action>)
    ensures var s := Run(log, INITIAL, actions + [Crash] + [Start]);
            s.stage.Waiting? && s.position == s.committed == Run(log, INITIAL, actions).committed
  {
    RunAppend(log, INITIAL, actions + [Crash], Start);
    RunAppend(log, INITIAL, actions, Crash);
  }

  /**
   Whatever happened before, one undisturbed consumer brings the committed offset exactly to the first message that
   is not accepted, and the table tells every message before it.
   */
  lemma RecoveryReaches(log: seq<Message>, actions: seq<Action>, stop: nat)
    requires StopsAt(log, stop)
    ensures var s := Run(log, INITIAL, actions + Recovery(log));
            s.committed == stop && TellsEvents(s.rows, log[..stop])
  {
    var all := actions + Recovery(log);
    RecoveryCommits(log, actions, stop);
    var reached := RunKeeps(log, all);
    BeforeStop(log, reached, stop);
    PassTells(log[..stop]);
  }

  lemma RecoveryCommits(log: seq<Message>, actions: seq<Action>, stop: nat)
    requires StopsAt(log, stop)
    ensures Run(log, INITIAL, actions + Recovery(log)).committed == stop
  {
    var high := RunKeeps(log, actions);
    BeforeStop(log, high, stop);
    Restarted(log, actions);
    assert actions + Recovery(log) == (actions + [Crash] + [Start]) + Rounds(|log|);
    RunConcat(log, INITIAL, actions + [Crash] + [Start], Rounds(|log|));
    RoundsReach(log, Run(log, INITIAL, actions + [Crash] + [Start]), |log|, stop);
  }

  lemma AcceptedPrefix(log: seq<Message>, high: nat)
    requires high <= |log| && AllGood(log[..high])
    ensures forall i :: 0 <= i < high ==> Accepted(log[i])
  {
    AllReadIff(log[..high]);
    assert forall i :: 0 <= i < high ==> log[..high][i] == log[i];
  }

  lemma BeforeStop(log: seq<Message>, high: nat, stop: nat)
    requires StopsAt(log, stop) && high <= |log| && AllGood(log[..high])
    ensures high <= stop
  {
    AcceptedPrefix(log, high);
  }
}
