/** The in-process device and transfer repositories, one lock each. */
module Repositories {
  import opened Tenants
  import Transfers

  datatype Device = Device(id: string, name: string, platform: string, pushToken: string, createdAt: int)

  type Transfer = Transfers.Transfer

  function SetToken(user: string, id: string, token: string): Action<Device> {
    Modify(user, id, (d: Device) => d.(pushToken := token))
  }

  function Replace(user: string, t: Transfer): Action<Transfer> {
    Modify(user, t.id, (was: Transfer) => t)
  }

  const DeviceKey: Device -> string := (d: Device) => d.id
  const TransferKey: Transfer -> string := (t: Transfer) => t.id

  /** Oldest first. */
  const DeviceRank: Device -> int := (d: Device) => d.createdAt

  /** Newest first. */
  const TransferRank: Transfer -> int := (t: Transfer) => -t.createdAt

  /** The values of a map's records that the user sees, in any order. */
  method Collect<T(!new)>(key: T -> string, items: Items<T>, user: string) returns (out: seq<T>)
    requires Keyed(key, items)
    ensures Lists(key, out, View(items, user))
  {
    out := [];
    var left := items.Keys;
    ghost var done: map<string, Record<T>> := map[];
    while left != {}
      invariant left <= items.Keys && done == items - left
      invariant Lists(key, out, View(done, user))
      decreases left
    {
      var id :| id in left;
      var record := items[id];
      AddOne(key, done, id, record, user, out);
      assert done[id := record] == items - (left - {id});
      if !(user != "" && record.user != user) {
        out := out + [record.value];
      }
      done := done[id := record];
      left := left - {id};
    }
    assert done == items;
  }

  lemma AddOne<T(!new)>(key: T -> string, done: Items<T>, id: string, record: Record<T>, user: string, out: seq<T>)
    requires id !in done && Keyed(key, done) && key(record.value) == id && Lists(key, out, View(done, user))
    ensures Lists(key, if Sees(user, record.user) then out + [record.value] else out, View(done[id := record], user))
  {
    var view := View(done, user);
    if Sees(user, record.user) {
      assert View(done[id := record], user) == view[id := record.value];
      ListsOneMore(key, out, view, id, record.value);
    } else {
      assert View(done[id := record], user) == view;
    }
  }

  lemma ListsOneMore<T(!new)>(key: T -> string, out: seq<T>, view: map<string, T>, id: string, value: T)
    requires Lists(key, out, view) && id !in view && key(value) == id
    ensures Lists(key, out + [value], view[id := value])
  {
    assert |view[id := value]| == |view| + 1;
  }

  lemma ListsSorted<T(!new)>(key: T -> string, a: seq<T>, b: seq<T>, view: map<string, T>)
    requires Lists(key, a, view) && multiset(a) == multiset(b)
    ensures Lists(key, b, view)
  {
    SameMembersSameLength(a, b);
  }

  class DeviceRepository {
    var items: Items<Device>

    ghost predicate Valid()
      reads this
    {
      Keyed(DeviceKey, items)
    }

    constructor ()
      ensures Valid() && items == map[]
    {
      items := map[];
    }

    method Create(user: string, device: Device) returns (created: Device)
      requires Valid()
      modifies this
      ensures Valid() && created == device
      ensures items == Step(old(items), Tenants.Create(user, device.id, device))
    {
      items := items[device.id := Record(device, user)];
      created := device;
    }

    /** Exactly the caller's devices, oldest first. */
    method List(user: string) returns (out: seq<Device>)
      requires Valid()
      ensures Lists(DeviceKey, out, View(items, user)) && Sorted(DeviceRank, out)
      ensures forall i, j :: 0 <= i < j < |out| ==> out[i].createdAt <= out[j].createdAt
    {
      var found := Collect(DeviceKey, items, user);
      out := SortByRank(DeviceRank, found);
      ListsSorted(DeviceKey, found, out, View(items, user));
      assert forall i, j :: 0 <= i < j < |out| ==> DeviceRank(out[i]) <= DeviceRank(out[j]);
    }

    method Get(user: string, id: string) returns (answer: Answer<Device>)
      ensures answer == AnswerTo(items, Tenants.Get(user, id))
    {
      if id !in items {
        return NotFound;
      }
      var record := items[id];
      if user != "" && record.user != user {
        return NotFound;
      }
      return Value(record.value);
    }

    method UpdatePushToken(user: string, id: string, token: string) returns (answer: Answer<Device>)
      requires Valid()
      modifies this
      ensures Valid()
      ensures items == Step(old(items), SetToken(user, id, token))
      ensures answer == AnswerTo(old(items), SetToken(user, id, token))
    {
      if id !in items {
        return NotFound;
      }
      var record := items[id];
      if user != "" && record.user != user {
        return NotFound;
      }
      record := record.(value := record.value.(pushToken := token));
      items := items[id := record];
      return Value(record.value);
    }

    method Delete(user: string, id: string) returns (answer: Answer<Device>)
      requires Valid()
      modifies this
      ensures Valid()
      ensures items == Step(old(items), Remove(user, id))
      ensures answer == AnswerTo(old(items), Remove(user, id))
    {
      if id !in items {
        return NotFound;
      }
      var record := items[id];
      if user != "" && record.user != user {
        return NotFound;
      }
      items := items - {id};
      return Removed;
    }
  }

  class TransferRepository {
    var items: Items<Transfer>

    ghost predicate Valid()
      reads this
    {
      Keyed(TransferKey, items)
    }

    constructor ()
      ensures Valid() && items == map[]
    {
      items := map[];
    }

    method Create(user: string, t: Transfer) returns (created: Transfer)
      requires Valid()
      modifies this
      ensures Valid() && created == t
      ensures items == Step(old(items), Tenants.Create(user, t.id, t))
    {
      items := items[t.id := Record(t, user)];
      created := t;
    }

    /** Exactly the caller's transfers, newest first. */
    method List(user: string) returns (out: seq<Transfer>)
      requires Valid()
      ensures Lists(TransferKey, out, View(items, user)) && Sorted(TransferRank, out)
      ensures forall i, j :: 0 <= i < j < |out| ==> out[i].createdAt >= out[j].createdAt
    {
      var found := Collect(TransferKey, items, user);
      out := SortByRank(TransferRank, found);
      ListsSorted(TransferKey, found, out, View(items, user));
      assert forall i, j :: 0 <= i < j < |out| ==> TransferRank(out[i]) <= TransferRank(out[j]);
    }

    method Get(user: string, id: string) returns (answer: Answer<Transfer>)
      ensures answer == AnswerTo(items, Tenants.Get(user, id))
    {
      if id !in items {
        return NotFound;
      }
      var record := items[id];
      if user != "" && record.user != user {
        return NotFound;
      }
      return Value(record.value);
    }

    method Update(user: string, t: Transfer) returns (answer: Answer<Transfer>)
      requires Valid()
      modifies this
      ensures Valid()
      ensures items == Step(old(items), Replace(user, t))
      ensures answer == AnswerTo(old(items), Replace(user, t))
    {
      if t.id !in items {
        return NotFound;
      }
      var record := items[t.id];
      if user != "" && record.user != user {
        return NotFound;
      }
      record := record.(value := t);
      items := items[t.id := record];
      return Value(t);
    }
  }
}
