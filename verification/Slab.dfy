/**
 The slab of src/engine/slab.rs: entries with a reusable buffer each, and a free list
 of indices.  The pool is proved against three functions on values, which the rest of
 the model uses.
 */
module Slab {
  import opened Base

  const U32: nat := 0x1_0000_0000

  /** Index the next allocation gets: the last freed one, else a new one. */
  function AllocIdx(entries: seq<KV>, free: seq<nat>): nat {
    if free != [] then free[|free| - 1] else |entries|
  }

  function AllocFree(free: seq<nat>): seq<nat> {
    if free != [] then free[..|free| - 1] else []
  }

  function AllocEntries(entries: seq<KV>, free: seq<nat>, kv: KV): (out: seq<KV>)
    requires forall f :: f in free ==> f < |entries|
  {
    if free != [] then
      assert free[|free| - 1] in free;
      entries[free[|free| - 1] := kv]
    else entries + [kv]
  }

  /** One key and value in one buffer, key first. */
  class SlabEntry {
    var keyLen: nat
    var valLen: nat
    var cap: nat
    var data: array<bv8>

    ghost predicate Valid()
      reads this
    {
      keyLen + valLen <= data.Length && cap <= data.Length
    }

    ghost function Content(): KV
      reads this, data
      requires Valid()
    {
      KV(data[..keyLen], data[keyLen..keyLen + valLen])
    }

    /** A new entry; a zero-length one still gets a one-byte buffer but capacity zero. */
    constructor (key: Bytes, value: Bytes)
      requires |key| + |value| < U32
      ensures Valid() && fresh(data) && Content() == KV(key, value)
    {
      var total := |key| + |value|;
      var buf := new bv8[if total == 0 then 1 else total];
      keyLen, valLen, cap, data := |key|, |value|, total, buf;
      new;
      Write(key, value);
    }

    method Write(key: Bytes, value: Bytes)
      requires |key| + |value| <= data.Length && cap <= data.Length
      modifies this, data
      ensures Valid() && data == old(data) && cap == old(cap) && Content() == KV(key, value)
    {
      forall i | 0 <= i < |key| { data[i] := key[i]; }
      forall i | 0 <= i < |value| { data[|key| + i] := value[i]; }
      keyLen, valLen := |key|, |value|;
      assert data[..|key|] == key && data[|key|..|key| + |value|] == value;
    }

    /** Overwrite in place, growing the buffer only when the new pair does not fit. */
    method Rewrite(key: Bytes, value: Bytes)
      requires Valid() && |key| + |value| < U32
      modifies this, data
      ensures Valid() && Content() == KV(key, value)
      ensures |key| + |value| <= old(cap) ==> data == old(data) && cap == old(cap)
      ensures data == old(data) || fresh(data)
    {
      var needed := |key| + |value|;
      if needed > cap {
        data := new bv8[needed];
        cap := needed;
      }
      Write(key, value);
    }
  }

  class SlabPool {
    var entries: seq<SlabEntry>
    var freeList: seq<nat>
    ghost var contents: seq<KV>    // every entry's pair, free ones included
    ghost var repr: set<object>

    ghost predicate Valid()
      reads this, repr
    {
      && this in repr
      && |contents| == |entries|
      && (forall i :: 0 <= i < |entries| ==>
            entries[i] in repr && entries[i].data in repr && entries[i].Valid() && entries[i].Content() == contents[i])
      && (forall i, j :: 0 <= i < j < |entries| ==> entries[i] != entries[j] && entries[i].data != entries[j].data)
    }

    constructor ()
      ensures Valid() && fresh(repr) && contents == [] && freeList == []
    {
      entries, freeList, contents := [], [], [];
      repr := {this};
    }

    method Alloc(key: Bytes, value: Bytes) returns (idx: nat)
      requires Valid() && |key| + |value| < U32
      requires forall f :: f in freeList ==> f < |contents|
      modifies repr
      ensures Valid() && fresh(repr - old(repr))
      ensures idx == AllocIdx(old(contents), old(freeList))
      ensures freeList == AllocFree(old(freeList))
      ensures contents == AllocEntries(old(contents), old(freeList), KV(key, value))
    {
      if freeList != [] {
        idx := freeList[|freeList| - 1];
        assert idx in freeList;
        freeList := freeList[..|freeList| - 1];
        Overwrite(idx, key, value);
        return;
      }
      idx := |entries|;
      Append(key, value);
    }

    method Overwrite(idx: nat, key: Bytes, value: Bytes)
      requires Valid() && |key| + |value| < U32 && idx < |contents|
      modifies repr
      ensures Valid() && fresh(repr - old(repr))
      ensures freeList == old(freeList) && contents == old(contents)[idx := KV(key, value)]
    {
      var e := entries[idx];
      e.Rewrite(key, value);
      repr := repr + {e.data};
      contents := contents[idx := KV(key, value)];
      forall i | 0 <= i < |entries| && i != idx
        ensures entries[i].Valid() && entries[i].Content() == contents[i]
      {
        assert entries[i] != e && entries[i].data != old(e.data) && entries[i].data == old(entries[i].data);
      }
    }

    method Append(key: Bytes, value: Bytes)
      requires Valid() && |key| + |value| < U32
      modifies this
      ensures Valid() && fresh(repr - old(repr))
      ensures freeList == old(freeList) && contents == old(contents) + [KV(key, value)]
    {
      var entry := new SlabEntry(key, value);
      entries := entries + [entry];
      repr := repr + {entry, entry.data};
      contents := contents + [KV(key, value)];
    }

    /** Put an index on the free list; its entry stays allocated. */
    method Free(idx: nat)
      requires Valid()
      modifies this`freeList
      ensures Valid()
      ensures freeList == old(freeList) + [idx]
    {
      freeList := freeList + [idx];
    }

    method Get(idx: nat) returns (kv: KV)
      requires Valid() && idx < |contents|
      ensures kv == contents[idx]
    {
      var e := entries[idx];
      kv := KV(e.data[..e.keyLen], e.data[e.keyLen..e.keyLen + e.valLen]);
    }
  }
}
