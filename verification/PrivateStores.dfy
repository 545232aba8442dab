/** What scoping promises, without owners: every user might as well have a store of its own. */
module PrivateStores {
  import opened Tenants

  /** A plain store of one user's values: no owners, no scoping. */
  function Act<T>(mine: map<string, T>, a: Action<T>): map<string, T> {
    match a
    case Create(_, id, value) => mine[id := value]
    case Get(_, _) => mine
    case List(_) => mine
    case Modify(_, id, change) => if id in mine then mine[id := change(mine[id])] else mine
    case Remove(_, id) => mine - {id}
  }

  function Reply<T>(mine: map<string, T>, a: Action<T>): Answer<T> {
    match a
    case Create(_, _, value) => Value(value)
    case List(_) => All(mine)
    case Get(_, id) => if id in mine then Value(mine[id]) else NotFound
    case Modify(_, id, change) => if id in mine then Value(change(mine[id])) else NotFound
    case Remove(_, id) => if id in mine then Removed else NotFound
  }

  /** The store after the user's own actions, which are picked out of everybody's. */
  function OwnStore<T>(mine: map<string, T>, actions: seq<Action<T>>, user: string): map<string, T>
    decreases |actions|
  {
    if actions == [] then mine
    else OwnStore(if actions[0].user == user then Act(mine, actions[0]) else mine, actions[1..], user)
  }

  function OwnReplies<T>(mine: map<string, T>, actions: seq<Action<T>>, user: string): seq<Answer<T>>
    decreases |actions|
  {
    if actions == [] then []
    else if actions[0].user == user
    then [Reply(mine, actions[0])] + OwnReplies(Act(mine, actions[0]), actions[1..], user)
    else OwnReplies(mine, actions[1..], user)
  }

  /** A store holds exactly the values of the user's records; of everybody's, for a caller without authentication. */
  ghost predicate Holds<T>(mine: map<string, T>, items: Items<T>, user: string) {
    forall id :: (id in mine <==> id in items && (user == "" || user == items[id].user))
                 && (id in mine ==> mine[id] == items[id].value)
  }

  lemma HoldsIsView<T>(mine: map<string, T>, items: Items<T>, user: string)
    requires Holds(mine, items, user)
    ensures mine == View(items, user)
  {
  }

  lemma OwnAction<T>(mine: map<string, T>, items: Items<T>, a: Action<T>)
    requires Holds(mine, items, a.user)
    ensures Holds(Act(mine, a), Step(items, a), a.user)
    ensures AnswerTo(items, a) == Reply(mine, a)
  {
    HoldsIsView(mine, items, a.user);
  }

  lemma OthersAction<T>(mine: map<string, T>, items: Items<T>, a: Action<T>, user: string)
    requires Holds(mine, items, user) && user != "" && a.user != "" && a.user != user
    requires a.Create? ==> a.id !in items
    ensures Holds(mine, Step(items, a), user)
  {
  }

  /**
   Whatever other users do in between, and though all records share one map, a user is answered as if the store held
   its own records only. Without authentication everybody shares one such store.
   */
  lemma {:induction false} AnsweredAsAlone<T>(mine: map<string, T>, items: Items<T>, actions: seq<Action<T>>,
                                              user: string)
    requires Holds(mine, items, user)
    requires user != "" ==> Authenticated(actions) && FreshIds(items, actions)
    requires user == "" ==> forall i :: 0 <= i < |actions| ==> actions[i].user == ""
    ensures Answers(items, actions, user) == OwnReplies(mine, actions, user)
    ensures Holds(OwnStore(mine, actions, user), Run(items, actions), user)
    decreases |actions|
  {
    if actions != [] {
      var a, rest := actions[0], actions[1..];
      if a.user == user {
        OwnAction(mine, items, a);
        AnsweredAsAlone(Act(mine, a), Step(items, a), rest, user);
      } else {
        OthersAction(mine, items, a, user);
        AnsweredAsAlone(mine, Step(items, a), rest, user);
      }
    }
  }

  /**
   Whoever acts, the unauthenticated caller included: without a creation under its id a record does not appear, and it
   never changes hands.
   */
  lemma {:induction false} OwnerStays<T>(items: Items<T>, actions: seq<Action<T>>, id: string)
    requires forall i :: 0 <= i < |actions| ==> !(actions[i].Create? && actions[i].id == id)
    requires id in Run(items, actions)
    ensures id in items && Run(items, actions)[id].user == items[id].user
    decreases |actions|
  {
    if actions != [] {
      OwnerStays(Step(items, actions[0]), actions[1..], id);
    }
  }
}
