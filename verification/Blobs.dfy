/** The local payload store: byte arrays are copied on the way in and on the way out. */
module Blobs {
  import opened Options
  import opened Encodings

  type Sha = seq<Byte> -> seq<Byte>

  class Store {
    var blobs: map<string, array<Byte>>

    ghost function Repr(): set<array<Byte>>
      reads this
    {
      blobs.Values
    }

    /** What is stored, as values. */
    ghost function Contents(): map<string, seq<Byte>>
      reads this, blobs.Values
    {
      map id | id in blobs :: blobs[id][..]
    }

    constructor ()
      ensures Contents() == map[] && Repr() == {}
    {
      blobs := map[];
    }

    /** Stores a copy: the caller's array never becomes part of the store. */
    method Put(id: string, data: array<Byte>)
      modifies this
      ensures Contents() == old(Contents())[id := data[..]]
      ensures fresh(Repr() - old(Repr()))
    {
      var copy := Copy(data);
      blobs := blobs[id := copy];
    }

    /** Hands out a copy: what the caller gets is not part of the store. */
    method Get(id: string) returns (found: Option<array<Byte>>)
      ensures found.Some? <==> id in Contents()
      ensures found.Some? ==> fresh(found.value) && found.value[..] == Contents()[id]
    {
      if id !in blobs {
        return None;
      }
      var copy := Copy(blobs[id]);
      return Some(copy);
    }

    method Exists(id: string) returns (found: bool)
      ensures found <==> id in Contents()
    {
      found := id in blobs;
    }

    /** Size and digest of what a download would return. */
    method InspectUploaded(sha: Sha, id: string) returns (found: Option<(int, string)>)
      ensures found == if id in Contents() then Some((|Contents()[id]|, EncodeHex(sha(Contents()[id])))) else None
    {
      var data := Get(id);
      if data.None? {
        return None;
      }
      return Some((data.value.Length, EncodeHex(sha(data.value[..]))));
    }
  }

  method Copy(data: array<Byte>) returns (copy: array<Byte>)
    ensures fresh(copy) && copy[..] == data[..]
  {
    copy := new Byte[data.Length](i requires 0 <= i < data.Length reads data => data[i]);
  }

  /** What those outside the store do: download, write into an array they hold, or upload one. */
  datatype Use = Fetch(id: string) | Scribble(which: nat, bytes: seq<Byte>) | Upload(id: string, which: nat)

  predicate Uploads(uses: seq<Use>, id: string) {
    exists i :: 0 <= i < |uses| && uses[i].Upload? && uses[i].id == id
  }

  lemma UploadsNext(uses: seq<Use>, n: nat)
    requires n < |uses|
    ensures forall id :: Uploads(uses[..n + 1], id) <==> Uploads(uses[..n], id) || (uses[n].Upload? && uses[n].id == id)
  {
    forall id ensures Uploads(uses[..n + 1], id) <==> Uploads(uses[..n], id) || (uses[n].Upload? && uses[n].id == id) {
      if Uploads(uses[..n], id) {
        var i :| 0 <= i < n && uses[..n][i].Upload? && uses[..n][i].id == id;
        assert uses[..n + 1][i] == uses[..n][i];
      }
      if uses[n].Upload? && uses[n].id == id {
        assert uses[..n + 1][n] == uses[n];
      }
      if Uploads(uses[..n + 1], id) {
        var i :| 0 <= i < n + 1 && uses[..n + 1][i].Upload? && uses[..n + 1][i].id == id;
        assert i < n ==> uses[..n][i] == uses[..n + 1][i];
      }
    }
  }

  /**
   However often the holders of outside arrays use the store and overwrite their arrays, stored bytes change
   only by upload.
   */
  method KeepUsing(store: Store, mine: seq<array<Byte>>, uses: seq<Use>) returns (held: seq<array<Byte>>)
    requires forall i :: 0 <= i < |mine| ==> mine[i] !in store.Repr()
    modifies store, set i | 0 <= i < |mine| :: mine[i]
    ensures forall id :: id in old(store.Contents()) && !Uploads(uses, id) ==>
                           id in store.Contents() && store.Contents()[id] == old(store.Contents())[id]
    ensures mine <= held && forall i :: 0 <= i < |held| ==> held[i] !in store.Repr()
  {
    held := mine;
    for n := 0 to |uses|
      invariant mine <= held
      invariant forall i :: 0 <= i < |held| ==> held[i] !in store.Repr() && (held[i] in mine || fresh(held[i]))
      invariant forall id :: id in old(store.Contents()) && !Uploads(uses[..n], id) ==>
                               id in store.Contents() && store.Contents()[id] == old(store.Contents())[id]
    {
      UploadsNext(uses, n);
      match uses[n] {
        case Fetch(id) =>
          var found := store.Get(id);
          if found.Some? {
            held := held + [found.value];
          }
        case Scribble(which, bytes) =>
          if which < |held| && held[which].Length == |bytes| {
            Overwrite(held[which], bytes);
          }
        case Upload(id, which) =>
          if which < |held| {
            store.Put(id, held[which]);
          }
      }
    }
    assert uses[..|uses|] == uses;
  }

  /** Every later download returns what was uploaded, byte for byte, until the id is uploaded again. */
  method BuffersStayPrivate(store: Store, id: string, upload: array<Byte>, uses: seq<Use>)
    returns (later: Option<array<Byte>>)
    requires upload !in store.Repr() && !Uploads(uses, id)
    modifies store, upload
    ensures later.Some? && fresh(later.value) && later.value[..] == old(upload[..])
    ensures forall other :: other in old(store.Contents()) && other != id && !Uploads(uses, other) ==>
                              other in store.Contents() && store.Contents()[other] == old(store.Contents())[other]
  {
    store.Put(id, upload);
    var held := KeepUsing(store, [upload], uses);
    later := store.Get(id);
  }

  method Overwrite(a: array<Byte>, bytes: seq<Byte>)
    requires |bytes| == a.Length
    modifies a
    ensures a[..] == bytes
  {
    for i := 0 to a.Length
      invariant a[..i] == bytes[..i]
    {
      a[i] := bytes[i];
      assert a[..i + 1] == a[..i] + [bytes[i]];
    }
  }
}
