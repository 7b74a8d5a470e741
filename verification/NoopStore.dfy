/** lib/externram/noop: external memory as an in-memory map that keeps the caller's buffers.
    Each client has its own map; together they are one map keyed by descriptor and address. */
module NoopStore {
  import opened Pages

  type Kv = map<PageId, Buffer>

  function Lookup(kv: Kv, p: PageId): (b: Option<Buffer>) {
    if p in kv then Some(kv[p]) else None
  }

  /** The map once the first `n` pairs are written, in order. */
  function WriteTo(kv: Kv, keys: seq<PageId>, bufs: seq<Buffer>, n: nat): (r: Kv)
    requires n <= |keys| <= |bufs|
  {
    if n == 0 then kv else WriteTo(kv, keys, bufs, n - 1)[keys[n - 1] := bufs[n - 1]]
  }

  /** What those writes hand back: each the buffer that it replaces. */
  function Replaced(kv: Kv, keys: seq<PageId>, bufs: seq<Buffer>, n: nat): (r: seq<Option<Buffer>>)
    requires n <= |keys| <= |bufs|
    ensures |r| == n
  {
    if n == 0 then [] else Replaced(kv, keys, bufs, n - 1) + [Lookup(WriteTo(kv, keys, bufs, n - 1), keys[n - 1])]
  }

  /** With distinct keys every pair ends up in the map, other keys keep their buffer, and the
      write of each key hands back the buffer the map held before the whole call. */
  lemma {:induction false} WriteToDistinct(kv: Kv, keys: seq<PageId>, bufs: seq<Buffer>, n: nat)
    requires n <= |keys| <= |bufs| && NoDup(keys)
    ensures forall i :: 0 <= i < n ==> Lookup(WriteTo(kv, keys, bufs, n), keys[i]) == Some(bufs[i])
    ensures forall q :: q !in keys[..n] ==> Lookup(WriteTo(kv, keys, bufs, n), q) == Lookup(kv, q)
    ensures forall i :: 0 <= i < n ==> Replaced(kv, keys, bufs, n)[i] == Lookup(kv, keys[i])
  {
    if n > 0 {
      WriteToDistinct(kv, keys, bufs, n - 1);
      assert keys[..n] == keys[..n - 1] + [keys[n - 1]];
    }
  }

  predicate AllSome(data: seq<Option<Buffer>>) {
    forall i :: 0 <= i < |data| ==> data[i].Some?
  }

  function Values(data: seq<Option<Buffer>>): (bufs: seq<Buffer>)
    requires AllSome(data)
    ensures |bufs| == |data| && forall i :: 0 <= i < |data| ==> data[i] == Some(bufs[i])
  {
    seq(|data|, i requires 0 <= i < |data| => data[i].value)
  }

  /** How many of the keys the store holds. */
  function CountFound(kv: Kv, keys: seq<PageId>): (n: nat)
    ensures n <= |keys|
    ensures n == |keys| <==> forall k :: k in keys ==> k in kv
  {
    if keys == [] then 0
    else
      var rest := keys[..|keys| - 1];
      assert keys == rest + [keys[|keys| - 1]];
      CountFound(kv, rest) + if keys[|keys| - 1] in kv then 1 else 0
  }

  class Client {
    var kv: Kv

    constructor ()
      ensures kv == map[]
    {
      kv := map[];
    }

    /** `write`: the new buffer replaces the old one, which goes back to the caller. */
    method Write(key: PageId, value: Buffer) returns (toFree: Option<Buffer>)
      modifies this
      ensures kv == old(kv)[key := value]
      ensures toFree == Lookup(old(kv), key)
    {
      if key in kv {
        toFree := Some(kv[key]);
        kv := kv[key := value];
      } else {
        kv := kv[key := value];
        toFree := None;
      }
    }

    /** `read`: a page-sized answer exactly when the key is present. */
    method Read(key: PageId) returns (value: Option<Buffer>, length: nat)
      ensures value == Lookup(kv, key)
      ensures length == if key in kv then PAGE_SIZE else 0
    {
      if key in kv {
        value, length := Some(kv[key]), PAGE_SIZE;
      } else {
        value, length := None, 0;
      }
    }

    /** `multiWrite`: `data` goes in with the buffers to write and comes out with the buffers
        to free, each the one its write replaced. */
    method MultiWrite(keys: seq<PageId>, data: array<Option<Buffer>>) returns (shouldFree: bool)
      requires |keys| == data.Length && AllSome(data[..])
      modifies this, data
      ensures kv == WriteTo(old(kv), keys, Values(old(data[..])), |keys|)
      ensures data[..] == Replaced(old(kv), keys, Values(old(data[..])), |keys|)
      ensures shouldFree <==> exists i :: 0 <= i < data.Length && data[i].Some?
    {
      ghost var bufs, was := Values(data[..]), kv;
      shouldFree := false;
      var i := 0;
      while i < data.Length
        invariant 0 <= i <= data.Length
        invariant kv == WriteTo(was, keys, bufs, i)
        invariant forall j :: i <= j < data.Length ==> data[j] == Some(bufs[j])
        invariant data[..i] == Replaced(was, keys, bufs, i)
        invariant shouldFree <==> exists j :: 0 <= j < i && data[j].Some?
      {
        var toFree := Write(keys[i], data[i].value);
        if toFree.Some? {
          shouldFree := true;
        }
        data[i] := toFree;
        assert data[..i + 1] == data[..i] + [toFree];
        i := i + 1;
      }
    }

    /** `multiRead`: one answer per key, and the number of keys found. */
    method MultiRead(keys: seq<PageId>) returns (values: seq<Option<Buffer>>, found: int)
      ensures |values| == |keys|
      ensures forall i :: 0 <= i < |keys| ==> values[i] == Lookup(kv, keys[i])
      ensures found == CountFound(kv, keys)
    {
      values := [];
      found := |keys|;
      var i := 0;
      while i < |keys|
        invariant 0 <= i <= |keys| && |values| == i
        invariant forall j :: 0 <= j < i ==> values[j] == Lookup(kv, keys[j])
        invariant found == CountFound(kv, keys[..i]) + |keys| - i
      {
        var value, length := Read(keys[i]);
        if length <= 0 {
          found := found - 1;
        }
        assert keys[..i + 1][..i] == keys[..i];
        values := values + [value];
        i := i + 1;
      }
      assert keys[..i] == keys;
    }

    /** `remove`: the entry and its mapping go; 1 exactly when there was one. */
    method Remove(key: PageId) returns (ret: int, unmapped: Option<Buffer>)
      modifies this
      ensures kv == old(kv) - {key}
      ensures unmapped == Lookup(old(kv), key)
      ensures ret == if key in old(kv) then 1 else 0
    {
      unmapped := Lookup(kv, key);
      ret := 0;
      if key in kv {
        ret := 1;
      }
      kv := kv - {key};
    }
  }
}
