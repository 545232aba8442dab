/**
 Token rotation told without token records: when each token was handed out, which ones were spent, and which
 families were revoked. The repository gives the same answers in every run.
 */
module RefreshLedger {
  import opened Options
  import opened RefreshFamilies

  datatype Ticket = Ticket(user: string, family: Family, handedAt: int)

  /** A family is revoked at once or not at all. */
  datatype Ledger = Ledger(tickets: map<Hash, Ticket>, spent: set<Hash>, revoked: set<Family>)

  ghost predicate KnownFamily(l: Ledger, family: Family) {
    exists h :: h in l.tickets && l.tickets[h].family == family
  }

  /** Thirty days in seconds, to the second. */
  predicate Fresh(l: Ledger, hash: Hash, now: int)
    requires hash in l.tickets
  {
    now - l.tickets[hash].handedAt < 30 * 24 * 60 * 60
  }

  /** Unknown, revoked or old tokens are invalid; a spent one is reuse; the others are exchanged. */
  function Verdict(l: Ledger, hash: Hash, now: int): Outcome {
    if hash !in l.tickets || l.tickets[hash].family in l.revoked || !Fresh(l, hash, now) then InvalidRefresh
    else if hash in l.spent then RefreshReuse
    else Rotated(l.tickets[hash].user)
  }

  ghost function Enter(l: Ledger, a: Action): Ledger {
    match a
    case Issue(user, family, hash, now) =>
      if hash in l.tickets || KnownFamily(l, family) then l
      else l.(tickets := l.tickets[hash := Ticket(user, family, now)])
    case Refresh(hash, replacement, now) =>
      if replacement in l.tickets then l
      else match Verdict(l, hash, now)
        case InvalidRefresh => l
        case RefreshReuse => l.(revoked := l.revoked + {l.tickets[hash].family})
        case Rotated(user) =>
          l.(tickets := l.tickets[replacement := Ticket(user, l.tickets[hash].family, now)], spent := l.spent + {hash})
  }

  ghost function History(l: Ledger, acts: seq<Action>): Ledger
    decreases |acts|
  {
    if acts == [] then l else History(Enter(l, acts[0]), acts[1..])
  }

  const BLANK := Ledger(map[], {}, {})

  /** The repository's records say what the ledger says. */
  ghost predicate Says(t: Table, l: Ledger) {
    && t.Keys == l.tickets.Keys && l.spent <= t.Keys
    && forall h :: h in t ==>
                     && t[h].user == l.tickets[h].user && t[h].family == l.tickets[h].family
                     && t[h].expiresAt == l.tickets[h].handedAt + 2_592_000
                     && (t[h].usedAt.Some? <==> h in l.spent)
                     && (t[h].revokedAt.Some? <==> t[h].family in l.revoked)
  }

  ghost predicate RevokedKnown(l: Ledger) {
    forall f :: f in l.revoked ==> KnownFamily(l, f)
  }

  lemma SameVerdict(t: Table, l: Ledger, hash: Hash, replacement: Hash, now: int)
    requires Says(t, l)
    ensures Rotate(t, hash, replacement, now + REFRESH_TTL, now).1 == Verdict(l, hash, now)
  {
  }

  lemma ReuseEntered(t: Table, l: Ledger, hash: Hash, now: int)
    requires Says(t, l) && hash in t
    ensures Says(RevokeFamily(t, t[hash].family, now), l.(revoked := l.revoked + {t[hash].family}))
  {
  }

  lemma RotationEntered(t: Table, l: Ledger, hash: Hash, replacement: Hash, now: int)
    requires Says(t, l) && Verdict(l, hash, now).Rotated? && replacement !in t
    ensures Says(Consume(t, hash, replacement, now + REFRESH_TTL, now), Enter(l, Refresh(hash, replacement, now)))
  {
  }

  lemma KnownIffTip(s: State, l: Ledger, family: Family)
    requires TipsOf(s.table, s.tips) && Says(s.table, l)
    ensures KnownFamily(l, family) <==> family in s.tips
  {
    if family in s.tips {
      assert s.tips[family] in l.tickets;
    }
  }

  lemma IssueEntered(s: State, l: Ledger, a: Action)
    requires TipsOf(s.table, s.tips) && Says(s.table, l) && RevokedKnown(l) && a.Issue?
    ensures Says(Step(s, a).table, Enter(l, a))
  {
    KnownIffTip(s, l, a.family);
    assert a.family in l.revoked ==> KnownFamily(l, a.family);
  }

  lemma Entered(s: State, l: Ledger, a: Action)
    requires TipsOf(s.table, s.tips) && Says(s.table, l) && RevokedKnown(l)
    ensures Says(Step(s, a).table, Enter(l, a)) && RevokedKnown(Enter(l, a))
  {
    StaysKnown(l, a);
    if a.Issue? {
      IssueEntered(s, l, a);
    } else if a.replacement !in s.table {
      RefreshTable(s, a);
      SameVerdict(s.table, l, a.hash, a.replacement, a.now);
      if Verdict(l, a.hash, a.now).RefreshReuse? {
        ReuseEntered(s.table, l, a.hash, a.now);
      } else if Verdict(l, a.hash, a.now).Rotated? {
        RotationEntered(s.table, l, a.hash, a.replacement, a.now);
      }
    }
  }

  lemma StaysKnown(l: Ledger, a: Action)
    requires RevokedKnown(l)
    ensures RevokedKnown(Enter(l, a))
  {
    var l' := Enter(l, a);
    forall f | f in l'.revoked ensures KnownFamily(l', f) {
      if f in l.revoked {
        var h :| h in l.tickets && l.tickets[h].family == f;
        assert h in l'.tickets && l'.tickets[h].family == f;
      } else {
        assert a.hash in l'.tickets && l'.tickets[a.hash].family == f;
      }
    }
  }

  lemma {:induction false} EnteredAll(s: State, l: Ledger, acts: seq<Action>)
    requires Inv(s) && Says(s.table, l) && RevokedKnown(l)
    ensures Says(Run(s, acts).table, History(l, acts))
    decreases |acts|
  {
    if acts != [] {
      InvStep(s, acts[0]);
      Entered(s, l, acts[0]);
      EnteredAll(Step(s, acts[0]), Enter(l, acts[0]), acts[1..]);
    }
  }

  /**
   Whatever was issued, refreshed and reused before, a refresh is answered from the ledger alone: invalid, reuse, or a
   replacement for the same user; in memory, and in a Postgres transaction whose replacement hash is new.
   */
  lemma AnswersFromLedger(acts: seq<Action>, hash: Hash, replacement: Hash, now: int)
    ensures var t, l := Run(Init(), acts).table, History(BLANK, acts);
            && Rotate(t, hash, replacement, now + REFRESH_TTL, now).1 == Verdict(l, hash, now)
            && (replacement !in l.tickets ==>
                  PgRotate(t, hash, replacement, now + REFRESH_TTL, now).1 == Committed(Verdict(l, hash, now)))
  {
    EnteredAll(Init(), BLANK, acts);
    SameVerdict(Run(Init(), acts).table, History(BLANK, acts), hash, replacement, now);
    if replacement !in Run(Init(), acts).table {
      PostgresAgreesWithMemory(Run(Init(), acts).table, hash, replacement, now + REFRESH_TTL, now);
    }
  }
}
