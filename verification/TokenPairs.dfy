/** What both mobile clients hold of a session, and how the server's table treats it. */
module TokenPairs {
  import opened Options
  import opened RefreshFamilies

  datatype Pair = Pair(access: nat, refresh: Hash)

  predicate Unused(server: State, h: Hash) {
    h in server.table && server.table[h].usedAt.None?
  }

  predicate Apart(p: Pair, q: Pair) {
    p.access != q.access && p.refresh != q.refresh
  }

  /** A step of the server leaves a token unused unless that very token is presented. */
  lemma UnusedStep(server: State, a: Action, h: Hash)
    requires Unused(server, h)
    requires !(a.Refresh? && a.hash == h)
    ensures Unused(Step(server, a), h)
  {
  }

  lemma UsedStays(server: State, a: Action, h: Hash)
    requires h in server.table && !Unused(server, h)
    ensures !Unused(Step(server, a), h)
  {
  }

  lemma TableGrows(server: State, a: Action, h: Hash)
    requires h in server.table
    ensures h in Step(server, a).table
  {
  }

  /** An unused token is never reported as reuse. */
  lemma UnusedNotReuse(server: State, h: Hash, replacement: Hash, expiresAt: int, now: int)
    requires Unused(server, h)
    ensures !Rotate(server.table, h, replacement, expiresAt, now).1.RefreshReuse?
  {
  }
}
