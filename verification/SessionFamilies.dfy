/** The token families of one client's session: nobody else grows them, and nothing revokes them without reuse. */
module SessionFamilies {
  import opened Options
  import opened RefreshFamilies
  import opened TokenPairs

  /** The families of the given tokens hold only these, and none of them is revoked. */
  ghost predicate Closed(t: Table, mine: set<Hash>) {
    && (forall h :: h in mine ==> h in t && t[h].revokedAt.None?)
    && forall h, k :: h in mine && k in t && t[k].family == t[h].family ==> k in mine
  }

  /** So it is of the client's tokens, among all families the server knows. */
  ghost predicate Safe(server: State, mine: set<Hash>) {
    && TipsOf(server.table, server.tips)
    && Closed(server.table, mine)
  }

  /** What others do, as long as they do not present the client's tokens. */
  lemma SafeFromOthers(server: State, mine: set<Hash>, a: Action)
    requires Safe(server, mine) && (a.Refresh? ==> a.hash !in mine)
    ensures Safe(Step(server, a), mine)
  {
    TipsStep(server, a);
    if a.Issue? {
      SafeFromIssue(server, mine, a);
    } else if a.replacement !in server.table {
      RefreshTable(server, a);
      SafeFromRotation(server.table, mine, a.hash, a.replacement, a.now + REFRESH_TTL, a.now);
    }
  }

  lemma SafeFromIssue(server: State, mine: set<Hash>, a: Action)
    requires Safe(server, mine) && a.Issue?
    ensures Closed(Step(server, a).table, mine)
  {
  }

  lemma SafeFromRotation(t: Table, mine: set<Hash>, hash: Hash, replacement: Hash, expiresAt: int, now: int)
    requires Closed(t, mine) && hash !in mine && replacement !in t
    ensures Closed(Rotate(t, hash, replacement, expiresAt, now).0, mine)
  {
  }

  lemma SafeFromLogin(server: State, mine: set<Hash>, user: string, family: Family, hash: Hash, now: int)
    requires Safe(server, mine) && hash !in server.table && family !in server.tips
    ensures Safe(Step(server, Issue(user, family, hash, now)), mine + {hash})
  {
    TipsStep(server, Issue(user, family, hash, now));
  }

  /** An unused token of the client rotates as long as it is not expired, and its family stays as it should. */
  lemma SafeRotation(server: State, mine: set<Hash>, hash: Hash, replacement: Hash, now: int)
    requires Safe(server, mine) && hash in mine && Unused(server, hash) && replacement !in server.table
    requires now < server.table[hash].expiresAt
    ensures Rotate(server.table, hash, replacement, now + REFRESH_TTL, now).1.Rotated?
    ensures Safe(Step(server, Refresh(hash, replacement, now)), mine + {replacement})
  {
    TipsStep(server, Refresh(hash, replacement, now));
  }
}
