/** Owner-scoped records: what one user sees is not touched by what other users do. */
module Tenants {

  datatype Record<T> = Record(value: T, user: string)

  type Items<T> = map<string, Record<T>>

  /** The empty user stands for a caller without authentication, who sees everything. */
  predicate Sees(user: string, owner: string) {
    user == "" || owner == user
  }

  function View<T>(items: Items<T>, user: string): map<string, T> {
    map id | id in items && Sees(user, items[id].user) :: items[id].value
  }

  datatype Action<!T> =
    | Create(user: string, id: string, value: T)
    | Get(user: string, id: string)
    | List(user: string)
    | Modify(user: string, id: string, change: T -> T)
    | Remove(user: string, id: string)

  datatype Answer<T> = Value(value: T) | All(view: map<string, T>) | Removed | NotFound

  /** Missing and foreign records are answered alike. */
  predicate Reaches<T>(items: Items<T>, user: string, id: string) {
    id in items && Sees(user, items[id].user)
  }

  function Step<T>(items: Items<T>, a: Action<T>): Items<T> {
    match a
    case Create(user, id, value) => items[id := Record(value, user)]
    case Get(_, _) => items
    case List(_) => items
    case Modify(user, id, change) =>
      if Reaches(items, user, id) then items[id := Record(change(items[id].value), items[id].user)] else items
    case Remove(user, id) => if Reaches(items, user, id) then items - {id} else items
  }

  function AnswerTo<T>(items: Items<T>, a: Action<T>): Answer<T> {
    match a
    case Create(_, _, value) => Value(value)
    case List(user) => All(View(items, user))
    case Get(user, id) => if Reaches(items, user, id) then Value(items[id].value) else NotFound
    case Modify(user, id, change) =>
      if Reaches(items, user, id) then Value(change(items[id].value)) else NotFound
    case Remove(user, id) => if Reaches(items, user, id) then Removed else NotFound
  }

  function Run<T>(items: Items<T>, actions: seq<Action<T>>): Items<T>
    decreases |actions|
  {
    if actions == [] then items else Run(Step(items, actions[0]), actions[1..])
  }

  /** The answers one user gets. */
  function Answers<T>(items: Items<T>, actions: seq<Action<T>>, user: string): seq<Answer<T>>
    decreases |actions|
  {
    if actions == [] then []
    else (if actions[0].user == user then [AnswerTo(items, actions[0])] else [])
         + Answers(Step(items, actions[0]), actions[1..], user)
  }

  /** The actions of one user alone. */
  function Own<T>(actions: seq<Action<T>>, user: string): seq<Action<T>> {
    if actions == [] then []
    else (if actions[0].user == user then [actions[0]] else []) + Own(actions[1..], user)
  }

  predicate Authenticated<T>(actions: seq<Action<T>>) {
    forall i :: 0 <= i < |actions| ==> actions[i].user != ""
  }

  /** New ids are random; here they are new. */
  ghost predicate FreshIds<T>(items: Items<T>, actions: seq<Action<T>>)
    decreases |actions|
  {
    actions != [] ==>
      && (actions[0].Create? ==> actions[0].id !in items)
      && FreshIds(Step(items, actions[0]), actions[1..])
  }

  lemma OthersStep<T>(items: Items<T>, a: Action<T>, user: string)
    requires user != "" && a.user != "" && a.user != user
    requires !(a.Create? && a.id in View(items, user))
    ensures View(Step(items, a), user) == View(items, user)
  {
  }

  lemma OverwriteHides<T>(items: Items<T>, a: Action<T>, user: string)
    requires user != "" && a.user != "" && a.user != user
    requires a.Create? && a.id in View(items, user)
    ensures a.id !in View(Step(items, a), user)
  {
  }

  /**
   One action of another user is invisible exactly when it is not the creation of a record under an id the user
   has.
   */
  lemma InvisibleIffNotOverwriting<T>(items: Items<T>, a: Action<T>, user: string)
    requires user != "" && a.user != "" && a.user != user
    ensures View(Step(items, a), user) == View(items, user) <==> !(a.Create? && a.id in View(items, user))
  {
    if a.Create? && a.id in View(items, user) {
      OverwriteHides(items, a, user);
    } else {
      OthersStep(items, a, user);
    }
  }

  lemma ViewIsReach<T>(items: Items<T>, user: string, id: string)
    ensures id in View(items, user) <==> Reaches(items, user, id)
    ensures Reaches(items, user, id) ==> View(items, user)[id] == items[id].value
  {
  }

  lemma OwnStep<T>(items: Items<T>, items': Items<T>, a: Action<T>)
    requires a.user != "" && View(items, a.user) == View(items', a.user)
    ensures View(Step(items, a), a.user) == View(Step(items', a), a.user)
    ensures AnswerTo(items, a) == AnswerTo(items', a)
  {
    var user := a.user;
    if !a.List? {
      ViewIsReach(items, user, a.id);
      ViewIsReach(items', user, a.id);
    }
    if a.Create? {
      assert View(Step(items, a), user) == View(items, user)[a.id := a.value];
      assert View(Step(items', a), user) == View(items', user)[a.id := a.value];
    } else if a.Modify? && Reaches(items, user, a.id) {
      assert View(Step(items, a), user) == View(items, user)[a.id := a.change(items[a.id].value)];
      assert View(Step(items', a), user) == View(items', user)[a.id := a.change(items'[a.id].value)];
    } else if a.Remove? && Reaches(items, user, a.id) {
      assert View(Step(items, a), user) == View(items, user) - {a.id};
      assert View(Step(items', a), user) == View(items', user) - {a.id};
    }
  }

  /**
   Whatever other users do in between, a user gets the answers, and ends with the records, of a run
   in which nobody else did anything.
   */
  lemma {:induction false} NonInterference<T>(items: Items<T>, items': Items<T>, actions: seq<Action<T>>, user: string)
    requires user != "" && Authenticated(actions) && FreshIds(items, actions)
    requires View(items, user) == View(items', user)
    ensures Answers(items, actions, user) == Answers(items', Own(actions, user), user)
    ensures View(Run(items, actions), user) == View(Run(items', Own(actions, user)), user)
    decreases |actions|
  {
    if actions != [] {
      var a, rest := actions[0], actions[1..];
      if a.user == user {
        OwnStep(items, items', a);
        assert Own(actions, user)[1..] == Own(rest, user);
        NonInterference(Step(items, a), Step(items', a), rest, user);
      } else {
        ViewIsReach(items, user, if a.Create? then a.id else "");
        OthersStep(items, a, user);
        assert Own(actions, user) == Own(rest, user);
        NonInterference(Step(items, a), items', rest, user);
      }
    }
  }

  // ----- Lists in order of creation -----

  predicate Sorted<T>(rank: T -> int, out: seq<T>) {
    forall i, j :: 0 <= i < j < |out| ==> rank(out[i]) <= rank(out[j])
  }

  /** `out` holds each record of the view once and nothing else; `key` is the id inside a record. */
  ghost predicate Lists<T(!new)>(key: T -> string, out: seq<T>, view: map<string, T>) {
    |out| == |view| && forall x :: x in out <==> key(x) in view && view[key(x)] == x
  }

  ghost predicate Keyed<T(!new)>(key: T -> string, items: Items<T>) {
    forall id :: id in items ==> key(items[id].value) == id
  }

  lemma {:induction false} SameMembersSameLength<T>(a: seq<T>, b: seq<T>)
    requires multiset(a) == multiset(b)
    ensures |a| == |b|
    ensures forall x :: x in a <==> x in b
  {
    assert |multiset(a)| == |a| && |multiset(b)| == |b|;
    forall x ensures x in a <==> x in b {
      assert x in a <==> x in multiset(a);
      assert x in b <==> x in multiset(b);
    }
  }

  method SortByRank<T>(rank: T -> int, items: seq<T>) returns (out: seq<T>)
    ensures Sorted(rank, out) && multiset(out) == multiset(items)
  {
    out := [];
    for n := 0 to |items|
      invariant Sorted(rank, out) && multiset(out) == multiset(items[..n])
    {
      assert items[..n + 1] == items[..n] + [items[n]];
      out := InsertByRank(rank, out, items[n]);
    }
    assert items[..|items|] == items;
  }

  method InsertByRank<T>(rank: T -> int, items: seq<T>, x: T) returns (out: seq<T>)
    requires Sorted(rank, items)
    ensures Sorted(rank, out) && multiset(out) == multiset(items + [x])
  {
    var i := |items|;
    while i > 0 && rank(items[i - 1]) > rank(x)
      invariant 0 <= i <= |items|
      invariant i < |items| ==> rank(x) <= rank(items[i])
    {
      i := i - 1;
    }
    out := items[..i] + [x] + items[i..];
    Inserted(rank, items, x, i);
    InsertedMultiset(items, x, i);
  }

  lemma InsertedMultiset<T>(items: seq<T>, x: T, i: nat)
    requires i <= |items|
    ensures multiset(items[..i] + [x] + items[i..]) == multiset(items + [x])
  {
    assert items == items[..i] + items[i..];
    assert multiset(items) == multiset(items[..i]) + multiset(items[i..]);
    assert multiset(items + [x]) == multiset(items) + multiset([x]);
    assert multiset(items[..i] + [x]) == multiset(items[..i]) + multiset([x]);
  }

  lemma Inserted<T>(rank: T -> int, items: seq<T>, x: T, i: nat)
    requires Sorted(rank, items) && i <= |items|
    requires i > 0 ==> rank(items[i - 1]) <= rank(x)
    requires i < |items| ==> rank(x) <= rank(items[i])
    ensures Sorted(rank, items[..i] + [x] + items[i..])
  {
    var out := items[..i] + [x] + items[i..];
    assert forall k :: 0 <= k < |out| ==> out[k] == if k < i then items[k] else if k == i then x else items[k - 1];
  }

  /** A sorted listing of records created at different times is the only one. */
  lemma {:induction false} OneListing<T(!new)>(key: T -> string, rank: T -> int, out: seq<T>, out': seq<T>,
                                        view: map<string, T>)
    requires Lists(key, out, view) && Lists(key, out', view) && Sorted(rank, out) && Sorted(rank, out')
    requires forall i, j :: 0 <= i < j < |out| ==> rank(out[i]) != rank(out[j])
    requires forall i, j :: 0 <= i < j < |out'| ==> rank(out'[i]) != rank(out'[j])
    ensures out == out'
  {
    SameElementsInOrder(rank, out, out');
  }

  lemma {:induction false} SameElementsInOrder<T>(rank: T -> int, a: seq<T>, b: seq<T>)
    requires |a| == |b| && forall x :: x in a <==> x in b
    requires forall i, j :: 0 <= i < j < |a| ==> rank(a[i]) < rank(a[j])
    requires forall i, j :: 0 <= i < j < |b| ==> rank(b[i]) < rank(b[j])
    ensures a == b
  {
    if a != [] {
      assert a[0] in b && b[0] in a;
      assert a[0] == b[0];
      forall x ensures x in a[1..] <==> x in b[1..] {
        assert x in a <==> x == a[0] || x in a[1..];
        assert x in b <==> x == b[0] || x in b[1..];
        assert a[0] !in a[1..] && b[0] !in b[1..];
      }
      SameElementsInOrder(rank, a[1..], b[1..]);
    }
  }
}
