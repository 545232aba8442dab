/**
 Refresh-token rotation with family-wide revocation on reuse, on the mutex-guarded memory
 repository and on Postgres transactions taken one at a time. Tokens appear as their hashes.
 */
module RefreshFamilies {
  import opened Options

  const REFRESH_TTL: int := 2_592_000  // 30 days, in seconds

  type Hash = string
  type Family = string

  datatype Token = Token(user: string, family: Family, expiresAt: int, usedAt: Option<int>, revokedAt: Option<int>)
  type Table = map<Hash, Token>

  datatype Outcome = Rotated(user: string) | InvalidRefresh | RefreshReuse

  function NewToken(user: string, family: Family, expiresAt: int): Token {
    Token(user, family, expiresAt, None, None)
  }

  predicate Acceptable(t: Table, hash: Hash, now: int) {
    hash in t && t[hash].revokedAt.None? && t[hash].expiresAt > now
  }

  function RevokeFamily(t: Table, family: Family, now: int): Table {
    map h | h in t :: if t[h].family == family && t[h].revokedAt.None? then t[h].(revokedAt := Some(now)) else t[h]
  }

  function Consume(t: Table, hash: Hash, replacement: Hash, replacementExpiresAt: int, now: int): Table
    requires hash in t
  {
    t[hash := t[hash].(usedAt := Some(now))]
     [replacement := NewToken(t[hash].user, t[hash].family, replacementExpiresAt)]
  }

  function Rotate(t: Table, hash: Hash, replacement: Hash, replacementExpiresAt: int, now: int): (Table, Outcome) {
    if !Acceptable(t, hash, now) then (t, InvalidRefresh)
    else if t[hash].usedAt.Some? then (RevokeFamily(t, t[hash].family, now), RefreshReuse)
    else (Consume(t, hash, replacement, replacementExpiresAt, now), Rotated(t[hash].user))
  }

  class MemoryRepository {
    var refresh: Table

    constructor ()
      ensures refresh == map[]
    {
      refresh := map[];
    }

    method CreateRefresh(user: string, family: Family, hash: Hash, expiresAt: int)
      modifies this
      ensures refresh == old(refresh)[hash := NewToken(user, family, expiresAt)]
    {
      refresh := refresh[hash := Token(user, family, expiresAt, None, None)];
    }

    method RotateRefresh(hash: Hash, replacement: Hash, replacementExpiresAt: int, now: int) returns (outcome: Outcome)
      modifies this
      ensures (refresh, outcome) == Rotate(old(refresh), hash, replacement, replacementExpiresAt, now)
    {
      if hash !in refresh {
        return InvalidRefresh;
      }
      var record := refresh[hash];
      if record.revokedAt.Some? || record.expiresAt <= now {
        return InvalidRefresh;
      }
      if record.usedAt.Some? {
        RevokeAll(record.family, now);
        return RefreshReuse;
      }
      refresh := refresh[hash := record.(usedAt := Some(now))];
      refresh := refresh[replacement := Token(record.user, record.family, replacementExpiresAt, None, None)];
      return Rotated(record.user);
    }

    method RevokeAll(family: Family, now: int)
      modifies this
      ensures refresh == RevokeFamily(old(refresh), family, now)
    {
      var pending := refresh.Keys;
      while pending != {}
        invariant pending <= refresh.Keys == old(refresh).Keys
        invariant forall h :: h in pending ==> refresh[h] == old(refresh)[h]
        invariant forall h :: h in refresh && h !in pending ==>
                                refresh[h] == RevokeFamily(old(refresh), family, now)[h]
        decreases pending
      {
        var h :| h in pending;
        var item := refresh[h];
        if item.family == family && item.revokedAt.None? {
          refresh := refresh[h := item.(revokedAt := Some(now))];
        }
        pending := pending - {h};
      }
    }
  }

  // ----- The Postgres transaction, one at a time -----

  datatype PgOutcome = Committed(outcome: Outcome) | UniqueViolation

  /** SELECT ... FOR UPDATE, then either the COALESCE update or the used_at update and the insert. */
  function PgRotate(t: Table, hash: Hash, replacement: Hash, replacementExpiresAt: int, now: int): (Table, PgOutcome) {
    if hash !in t then (t, Committed(InvalidRefresh))
    else
      var row := t[hash];
      if row.revokedAt.Some? || !(row.expiresAt > now) then (t, Committed(InvalidRefresh))
      else if row.usedAt.Some? then
        (map h | h in t ::
           if t[h].family == row.family
           then t[h].(revokedAt := Some(if t[h].revokedAt.Some? then t[h].revokedAt.value else now))
           else t[h],
         Committed(RefreshReuse))
      else
        var marked := t[hash := row.(usedAt := Some(now))];
        if replacement in marked then (t, UniqueViolation)
        else (marked[replacement := NewToken(row.user, row.family, replacementExpiresAt)], Committed(Rotated(row.user)))
  }

  /** The two repositories do the same thing whenever the replacement hash is new. */
  lemma PostgresAgreesWithMemory(t: Table, hash: Hash, replacement: Hash, replacementExpiresAt: int, now: int)
    requires replacement !in t
    ensures var (memory, outcome) := Rotate(t, hash, replacement, replacementExpiresAt, now);
            PgRotate(t, hash, replacement, replacementExpiresAt, now) == (memory, Committed(outcome))
  {
    var (memory, outcome) := Rotate(t, hash, replacement, replacementExpiresAt, now);
    var (pg, _) := PgRotate(t, hash, replacement, replacementExpiresAt, now);
    assert memory == pg;
  }

  // ----- Runs of the service -----

  datatype Action =
    | Issue(user: string, family: Family, hash: Hash, now: int)      // register or login
    | Refresh(hash: Hash, replacement: Hash, now: int)

  /**
   `tips`, `rotated` and `parent` are history: the newest token of each family, the hashes that
   rotated successfully, in order, and the token each replacement came from.
   */
  datatype State = State(table: Table, tips: map<Family, Hash>, rotated: seq<Hash>, parent: map<Hash, Hash>)

  function Init(): State {
    State(map[], map[], [], map[])
  }

  /** Random hashes and family ids are fresh; an action that breaks this does not happen. */
  function Step(s: State, a: Action): State {
    match a
    case Issue(user, family, hash, now) =>
      if hash in s.table || family in s.tips then s
      else s.(table := s.table[hash := NewToken(user, family, now + REFRESH_TTL)], tips := s.tips[family := hash])
    case Refresh(hash, replacement, now) =>
      if replacement in s.table then s
      else
        var (table, outcome) := Rotate(s.table, hash, replacement, now + REFRESH_TTL, now);
        if !outcome.Rotated? then s.(table := table)
        else State(table, s.tips[s.table[hash].family := replacement], s.rotated + [hash],
                   s.parent[replacement := hash])
  }

  function Run(s: State, acts: seq<Action>): State
    decreases |acts|
  {
    if acts == [] then s else Run(Step(s, acts[0]), acts[1..])
  }

  /** `tips` names the one unused token of each family. */
  ghost predicate TipsOf(t: Table, tips: map<Family, Hash>) {
    && (forall h :: h in t ==> t[h].family in tips)
    && (forall h :: h in t ==> (t[h].usedAt.None? <==> h == tips[t[h].family]))
    && (forall f :: f in tips ==> tips[f] in t && t[tips[f]].family == f)
  }

  ghost predicate FamiliesUniform(t: Table) {
    forall h, k :: h in t && k in t && t[h].family == t[k].family ==>
                     && t[h].user == t[k].user
                     && (t[h].revokedAt.Some? <==> t[k].revokedAt.Some?)
  }

  ghost predicate RotatedOnce(s: State) {
    && (forall i, j :: 0 <= i < j < |s.rotated| ==> s.rotated[i] != s.rotated[j])
    && (forall h :: h in s.rotated <==> h in s.table && s.table[h].usedAt.Some?)
  }

  ghost predicate ParentsUsed(s: State) {
    forall h :: h in s.parent ==>
                  && h in s.table && s.parent[h] in s.table
                  && s.table[s.parent[h]].usedAt.Some?
                  && s.table[s.parent[h]].family == s.table[h].family
  }

  ghost predicate Inv(s: State) {
    TipsOf(s.table, s.tips) && FamiliesUniform(s.table) && RotatedOnce(s) && ParentsUsed(s)
  }

  lemma RefreshTable(s: State, a: Action)
    requires a.Refresh? && a.replacement !in s.table
    ensures Step(s, a).table == Rotate(s.table, a.hash, a.replacement, a.now + REFRESH_TTL, a.now).0
  {
  }

  lemma RevokeKeepsTips(t: Table, tips: map<Family, Hash>, family: Family, now: int)
    requires TipsOf(t, tips)
    ensures TipsOf(RevokeFamily(t, family, now), tips)
  {
  }

  lemma ConsumeMovesTip(t: Table, tips: map<Family, Hash>, hash: Hash, replacement: Hash, expiresAt: int, now: int)
    requires TipsOf(t, tips) && hash in t && t[hash].usedAt.None? && replacement !in t
    ensures TipsOf(Consume(t, hash, replacement, expiresAt, now), tips[t[hash].family := replacement])
  {
  }

  lemma TipsStep(s: State, a: Action)
    requires TipsOf(s.table, s.tips)
    ensures TipsOf(Step(s, a).table, Step(s, a).tips)
  {
    match a
    case Issue(user, family, hash, now) =>
    case Refresh(hash, replacement, now) =>
      if replacement !in s.table && Acceptable(s.table, hash, now) {
        if s.table[hash].usedAt.Some? {
          RevokeKeepsTips(s.table, s.tips, s.table[hash].family, now);
        } else {
          ConsumeMovesTip(s.table, s.tips, hash, replacement, now + REFRESH_TTL, now);
        }
      }
  }

  lemma RevokeKeepsFamilies(t: Table, family: Family, now: int)
    requires FamiliesUniform(t)
    ensures FamiliesUniform(RevokeFamily(t, family, now))
  {
  }

  lemma ConsumeKeepsFamilies(t: Table, hash: Hash, replacement: Hash, expiresAt: int, now: int)
    requires FamiliesUniform(t) && Acceptable(t, hash, now) && replacement !in t
    ensures FamiliesUniform(Consume(t, hash, replacement, expiresAt, now))
  {
    var t' := Consume(t, hash, replacement, expiresAt, now);
    forall h | h in t' && t'[h].family == t[hash].family
      ensures t'[h].user == t[hash].user && t'[h].revokedAt.None?
    {
    }
  }

  lemma RotateKeepsFamilies(t: Table, hash: Hash, replacement: Hash, expiresAt: int, now: int)
    requires FamiliesUniform(t) && replacement !in t
    ensures FamiliesUniform(Rotate(t, hash, replacement, expiresAt, now).0)
  {
    if Acceptable(t, hash, now) {
      RevokeKeepsFamilies(t, t[hash].family, now);
      ConsumeKeepsFamilies(t, hash, replacement, expiresAt, now);
    }
  }

  lemma IssueKeepsFamilies(s: State, a: Action)
    requires TipsOf(s.table, s.tips) && FamiliesUniform(s.table) && a.Issue?
    ensures FamiliesUniform(Step(s, a).table)
  {
  }

  lemma FamiliesStep(s: State, a: Action)
    requires TipsOf(s.table, s.tips) && FamiliesUniform(s.table)
    ensures FamiliesUniform(Step(s, a).table)
  {
    if a.Issue? {
      IssueKeepsFamilies(s, a);
    } else if a.replacement !in s.table {
      RotateKeepsFamilies(s.table, a.hash, a.replacement, a.now + REFRESH_TTL, a.now);
      RefreshTable(s, a);
    }
  }

  lemma RotatedStep(s: State, a: Action)
    requires RotatedOnce(s)
    ensures RotatedOnce(Step(s, a))
  {
    var s' := Step(s, a);
    if s'.rotated == s.rotated {
      forall h ensures h in s'.table && s'.table[h].usedAt.Some? <==> h in s.table && s.table[h].usedAt.Some? {
      }
    } else {
      assert s'.rotated == s.rotated + [a.hash] && s.table[a.hash].usedAt.None?;
      forall h ensures h in s'.rotated <==> h in s.rotated || h == a.hash {
      }
    }
  }

  lemma ParentsStep(s: State, a: Action)
    requires ParentsUsed(s)
    ensures ParentsUsed(Step(s, a))
  {
  }

  lemma InvStep(s: State, a: Action)
    requires Inv(s)
    ensures Inv(Step(s, a))
  {
    TipsStep(s, a);
    FamiliesStep(s, a);
    RotatedStep(s, a);
    ParentsStep(s, a);
  }

  lemma {:induction false} InvRun(s: State, acts: seq<Action>)
    requires Inv(s)
    ensures Inv(Run(s, acts))
    decreases |acts|
  {
    if acts != [] {
      InvStep(s, acts[0]);
      InvRun(Step(s, acts[0]), acts[1..]);
    }
  }

  function UnusedOf(t: Table, family: Family): set<Hash> {
    set h | h in t && t[h].family == family && t[h].usedAt.None?
  }

  /** In every run a family has one user, exactly one unused token, and is revoked as a whole or not at all. */
  lemma FamilyShape(acts: seq<Action>, h: Hash)
    requires h in Run(Init(), acts).table
    ensures var t := Run(Init(), acts).table;
            && |UnusedOf(t, t[h].family)| == 1
            && forall k :: k in t && t[k].family == t[h].family ==>
                             t[k].user == t[h].user && (t[k].revokedAt.Some? <==> t[h].revokedAt.Some?)
  {
    InvRun(Init(), acts);
    var s := Run(Init(), acts);
    assert UnusedOf(s.table, s.table[h].family) == {s.tips[s.table[h].family]};
  }

  /** No token ever rotates successfully twice. */
  lemma RotatesAtMostOnce(acts: seq<Action>, i: nat, j: nat)
    requires i < j < |Run(Init(), acts).rotated|
    ensures Run(Init(), acts).rotated[i] != Run(Init(), acts).rotated[j]
  {
    InvRun(Init(), acts);
  }

  /** A refresh succeeds exactly for the family's newest token, while it is neither expired nor revoked. */
  lemma RotatesIffNewest(acts: seq<Action>, hash: Hash, replacement: Hash, now: int)
    ensures var s := Run(Init(), acts);
            Rotate(s.table, hash, replacement, now + REFRESH_TTL, now).1.Rotated?
            <==> && Acceptable(s.table, hash, now)
                 && s.table[hash].family in s.tips && hash == s.tips[s.table[hash].family]
  {
    InvRun(Init(), acts);
  }

  ghost predicate FamilyRevoked(t: Table, family: Family) {
    exists h :: h in t && t[h].family == family && t[h].revokedAt.Some?
  }

  ghost predicate SameFamilyRecords(t: Table, t': Table, family: Family) {
    forall h :: (h in t && t[h].family == family) || (h in t' && t'[h].family == family) ==>
                  h in t && h in t' && t[h] == t'[h]
  }

  lemma RevokedAll(t: Table, family: Family, h: Hash)
    requires FamiliesUniform(t) && FamilyRevoked(t, family) && h in t && t[h].family == family
    ensures t[h].revokedAt.Some?
  {
    var k :| k in t && t[k].family == family && t[k].revokedAt.Some?;
  }

  lemma FrozenRotate(t: Table, hash: Hash, replacement: Hash, expiresAt: int, now: int, family: Family)
    requires FamiliesUniform(t) && FamilyRevoked(t, family) && replacement !in t
    ensures SameFamilyRecords(t, Rotate(t, hash, replacement, expiresAt, now).0, family)
  {
    if Acceptable(t, hash, now) && t[hash].family == family {
      RevokedAll(t, family, hash);
    }
  }

  lemma FrozenStaysRevoked(t: Table, t': Table, family: Family)
    requires FamilyRevoked(t, family) && SameFamilyRecords(t, t', family)
    ensures FamilyRevoked(t', family)
  {
    var h :| h in t && t[h].family == family && t[h].revokedAt.Some?;
    assert h in t' && t'[h] == t[h];
  }

  lemma FrozenIssue(s: State, a: Action, family: Family)
    requires TipsOf(s.table, s.tips) && FamilyRevoked(s.table, family) && a.Issue?
    ensures SameFamilyRecords(s.table, Step(s, a).table, family)
  {
    var h :| h in s.table && s.table[h].family == family && s.table[h].revokedAt.Some?;
    assert family in s.tips;
  }

  lemma FrozenStep(s: State, a: Action, family: Family)
    requires TipsOf(s.table, s.tips) && FamiliesUniform(s.table) && FamilyRevoked(s.table, family)
    ensures SameFamilyRecords(s.table, Step(s, a).table, family)
  {
    if a.Issue? {
      FrozenIssue(s, a, family);
    } else if a.replacement in s.table {
      assert Step(s, a) == s;
    } else {
      RefreshTable(s, a);
      FrozenRotate(s.table, a.hash, a.replacement, a.now + REFRESH_TTL, a.now, family);
    }
  }

  lemma {:induction false} FrozenRun(s: State, acts: seq<Action>, family: Family)
    requires Inv(s) && FamilyRevoked(s.table, family)
    ensures SameFamilyRecords(s.table, Run(s, acts).table, family)
    decreases |acts|
  {
    if acts != [] {
      InvStep(s, acts[0]);
      FrozenStep(s, acts[0], family);
      FrozenStaysRevoked(s.table, Step(s, acts[0]).table, family);
      FrozenRun(Step(s, acts[0]), acts[1..], family);
    }
  }

  /**
   Reuse is final: once a refresh of a consumed token is reported as reuse, every token of that
   family is revoked, and no later action adds to the family or changes any record in it.
   */
  lemma ReuseFreezesFamily(before: seq<Action>, hash: Hash, replacement: Hash, now: int, after: seq<Action>)
    requires var s := Run(Init(), before);
             && replacement !in s.table
             && Rotate(s.table, hash, replacement, now + REFRESH_TTL, now).1.RefreshReuse?
    ensures var s := Run(Init(), before);
            var family := s.table[hash].family;
            var s' := Step(s, Refresh(hash, replacement, now));
            && (forall h :: h in s'.table && s'.table[h].family == family ==> s'.table[h].revokedAt.Some?)
            && (forall h :: h in s.table && s.table[h].family != family ==> s'.table[h] == s.table[h])
            && SameFamilyRecords(s'.table, Run(s', after).table, family)
  {
    InvRun(Init(), before);
    var s := Run(Init(), before);
    var s' := Step(s, Refresh(hash, replacement, now));
    InvStep(s, Refresh(hash, replacement, now));
    assert hash in s'.table && s'.table[hash].revokedAt.Some?;
    FrozenRun(s', after, s.table[hash].family);
  }

  // ----- Expiry along the chain, with a monotone clock -----

  ghost predicate MonotoneFrom(now: int, acts: seq<Action>)
    decreases |acts|
  {
    acts != [] ==> now <= acts[0].now && MonotoneFrom(acts[0].now, acts[1..])
  }

  ghost function Last(now: int, acts: seq<Action>): int {
    if acts == [] then now else acts[|acts| - 1].now
  }

  ghost predicate Bounded(t: Table, now: int) {
    forall h :: h in t ==> t[h].expiresAt <= now + REFRESH_TTL
  }

  ghost predicate ExpiriesOrdered(s: State) {
    forall h :: h in s.parent ==>
                  && h in s.table && s.parent[h] in s.table
                  && s.table[s.parent[h]].expiresAt <= s.table[h].expiresAt
  }

  lemma BoundedStep(s: State, now: int, a: Action)
    requires Bounded(s.table, now) && now <= a.now
    ensures Bounded(Step(s, a).table, a.now)
  {
  }

  lemma ExpiriesStep(s: State, a: Action)
    requires Bounded(s.table, a.now) && ParentsUsed(s) && ExpiriesOrdered(s)
    ensures ExpiriesOrdered(Step(s, a))
  {
    var s' := Step(s, a);
    forall h | h in s.table ensures h in s'.table && s'.table[h].expiresAt == s.table[h].expiresAt {
    }
  }

  lemma {:induction false} ExpiriesRun(s: State, now: int, acts: seq<Action>)
    requires Inv(s) && Bounded(s.table, now) && ExpiriesOrdered(s) && MonotoneFrom(now, acts)
    ensures Bounded(Run(s, acts).table, Last(now, acts)) && ExpiriesOrdered(Run(s, acts))
    decreases |acts|
  {
    if acts != [] {
      InvStep(s, acts[0]);
      BoundedStep(s, now, acts[0]);
      ExpiriesStep(s, acts[0]);
      ExpiriesRun(Step(s, acts[0]), acts[0].now, acts[1..]);
    }
  }

  /** With a monotone clock a replacement never expires before the token it came from. */
  lemma ExpiryNeverDecreases(acts: seq<Action>, h: Hash)
    requires acts != [] && MonotoneFrom(acts[0].now, acts) && h in Run(Init(), acts).parent
    ensures var s := Run(Init(), acts);
            && h in s.table && s.parent[h] in s.table
            && s.table[s.parent[h]].expiresAt <= s.table[h].expiresAt
  {
    ExpiriesRun(Init(), acts[0].now, acts);
  }
}
