/**
 Shard routing (src/sharded.rs): sixteen concurrent maps, chosen by hash bits 14..17, each
 indexing its buckets by the hash with those bits taken out.
 */
module Sharded {
  import opened Base
  import opened Hashing
  import R = RawSpec
  import S = SyncSpec
  import SR = SyncRuns
  import Q = SyncResults
  import C = ConcurrentMaps

  /** Put shard bits back between bits 13 and 14 of a 60-bit bucket hash. */
  function Join(shard: bv64, g: bv64): bv64 {
    (g & 0x3FFF) | ((shard & 0x0F) << 14) | ((g & !0x3FFF) << 4)
  }

  const MAX60: bv64 := 0x0FFF_FFFF_FFFF_FFFF

  /** Shard and bucket hash together determine the hash. */
  lemma JoinSplit(h: bv64)
    ensures Join(ShardOf(h), BucketHash(h)) == h && ShardOf(h) <= 15 && BucketHash(h) <= MAX60
  {}

  /** And every pair of a shard and a 60-bit bucket hash comes from exactly one hash. */
  lemma SplitJoin(shard: bv64, g: bv64)
    requires shard <= 15 && g <= MAX60
    ensures ShardOf(Join(shard, g)) == shard && BucketHash(Join(shard, g)) == g
  {}

  /** Changing only the shard bits never changes the bucket, at any table size. */
  lemma IndexIgnoresShard(h: bv64, shard: bv64, bits: nat)
    requires shard <= 15
    ensures ShardOf(Join(shard, BucketHash(h))) == shard
    ensures Low(BucketHash(Join(shard, BucketHash(h))), bits) == Low(BucketHash(h), bits)
  {
    JoinSplit(h);
    SplitJoin(shard, BucketHash(h));
  }

  function Cons(x: bv64, odd: bool): bv64 { (x << 1) | (if odd then 1 else 0) }

  function Clear63(x: bv64): bv64 { Masked(x, 0x7FFF_FFFF_FFFF_FFFF) }

  /** A bit pattern with the given low bits. */
  function FromLow(n: nat, k: nat): bv64
    decreases k
  {
    if k == 0 then 0 else Cons(FromLow(n / 2, k - 1), n % 2 == 1)
  }

  lemma {:induction false} LowFrom(n: nat, k: nat)
    requires k <= 64 && n < Pow2(k)
    ensures Low(FromLow(n, k), k) == n
    decreases k
  {
    hide Low, Cons;
    if k == 0 {
      LowNone(FromLow(n, k));
    } else {
      LowFrom(n / 2, k - 1);
      LowCons(FromLow(n / 2, k - 1), n % 2 == 1, k);
    }
  }

  lemma LowNone(x: bv64)
    ensures Low(x, 0) == 0
  {}

  lemma {:induction false} LowCons(x: bv64, odd: bool, k: nat)
    requires 1 <= k <= 64
    ensures Low(Cons(x, odd), k) == (if odd then 1 else 0) + 2 * Low(x, k - 1)
  {
    hide Cons, Half, Odd, Clear63;
    ShiftBack(x, odd);
    assert Low(Clear63(x), k - 1) == Low(x, k - 1) by { LowClear(x, k - 1); }
  }

  lemma LowClear(x: bv64, j: nat)
    requires j <= 63
    ensures Low(Clear63(x), j) == Low(x, j)
  {
    hide Low;
    Mask63();
    LowMasked(x, 0x7FFF_FFFF_FFFF_FFFF, 63, j);
  }

  lemma ShiftBack(x: bv64, odd: bool)
    ensures Half(Cons(x, odd)) == Clear63(x) && Odd(Cons(x, odd)) == odd
  {}

  /** Bits above position `j` do not matter. */
  lemma LowMasked(x: bv64, m: bv64, k: nat, j: nat)
    requires IsMask(m, k) && j <= k
    ensures Low(Masked(x, m), j) == Low(x, j)
  {
    hide Low, Masked;
    MaskedIsLow(x, m, k, k);
    LowNested(Masked(x, m), x, j, k);
  }

  /** Four more low ones make a longer mask. */
  lemma {:induction false} Longer(m: bv64, k: nat)
    requires m & 0x0F == 0x0F && IsMask(m >> 4, k)
    ensures IsMask(m, k + 4)
  {
    hide Half, Odd;
    var m1 := Half(m);
    var m2 := Half(m1);
    var m3 := Half(m2);
    FourHalves(m);
    assert IsMask(m3, k + 1);
    assert IsMask(m2, k + 2);
    assert IsMask(m1, k + 3);
  }

  lemma FourHalves(m: bv64)
    requires m & 0x0F == 0x0F
    ensures Half(Half(Half(Half(m)))) == m >> 4
    ensures Odd(m) && Odd(Half(m)) && Odd(Half(Half(m))) && Odd(Half(Half(Half(m))))
  {}

  lemma Mask60()
    ensures IsMask(MAX60, 60)
  {
    hide IsMask;
    assert IsMask(0, 0) by { MaskBase(); }
    Longer(0xF, 0);
    Longer(0xFF, 4);
    Longer(0xFFF, 8);
    Longer(0xFFFF, 12);
    Longer(0xFFFFF, 16);
    Longer(0xFFFFFF, 20);
    Longer(0xFFFFFFF, 24);
    Longer(0xFFFFFFFF, 28);
    Longer(0xFFFFFFFFF, 32);
    Longer(0xFFFFFFFFFF, 36);
    Longer(0xFFFFFFFFFFF, 40);
    Longer(0xFFFFFFFFFFFF, 44);
    Longer(0xFFFFFFFFFFFFF, 48);
    Longer(0xFFFFFFFFFFFFFF, 52);
    Longer(0xFFFFFFFFFFFFFFF, 56);
  }

  lemma MaskBase()
    ensures IsMask(0, 0) && IsMask(0x07, 3)
  {
    assert IsMask(1, 1) && IsMask(3, 2);
  }

  lemma Mask63()
    ensures IsMask(0x7FFF_FFFF_FFFF_FFFF, 63)
  {
    hide IsMask;
    assert IsMask(0x07, 3) by { MaskBase(); }
    Longer(0x7F, 3);
    Longer(0x7FF, 7);
    Longer(0x7FFF, 11);
    Longer(0x7FFFF, 15);
    Longer(0x7FFFFF, 19);
    Longer(0x7FFFFFF, 23);
    Longer(0x7FFFFFFF, 27);
    Longer(0x7FFFFFFFF, 31);
    Longer(0x7FFFFFFFFF, 35);
    Longer(0x7FFFFFFFFFF, 39);
    Longer(0x7FFFFFFFFFFF, 43);
    Longer(0x7FFFFFFFFFFFF, 47);
    Longer(0x7FFFFFFFFFFFFF, 51);
    Longer(0x7FFFFFFFFFFFFFF, 55);
    Longer(0x7FFFFFFFFFFFFFFF, 59);
  }

  const NUM_SHARDS: nat := 16

  /** `shard_for`. */
  function Home(c: Config, key: Bytes): (s: nat)
    ensures s < NUM_SHARDS
  {
    ShardOf(c.hash(key)) as nat
  }

  /** Every key with hash `h` goes to this shard, and there to this bucket of a table of 2^bits. */
  ghost predicate Lands(h: bv64, shard: bv64, bits: nat, index: nat) {
    forall c: Config, key: Bytes :: c.sharded && c.hash(key) == h ==> Home(c, key) == shard as nat && IndexOf(c, key, bits) == index
  }

  /**
   Routing loses nothing: for every power-of-two size up to 2^60 each of the sixteen shards
   and each of its buckets together are where the keys of some hash go.
   */
  lemma EveryPairReachable(shard: bv64, bits: nat, index: nat)
    requires shard <= 15 && bits <= 60 && index < Pow2(bits)
    ensures exists h: bv64 :: Lands(h, shard, bits, index)
  {
    hide Low, FromLow, Join, ShardOf, BucketHash, Masked;
    Mask60();
    LowFrom(index, bits);
    LowMasked(FromLow(index, bits), MAX60, 60, bits);
    var g := Masked(FromLow(index, bits), MAX60);
    Below60(FromLow(index, bits));
    SplitJoin(shard, g);
    var h := Join(shard, g);
    assert ShardOf(h) == shard && Low(BucketHash(h), bits) == index;
    assert Lands(h, shard, bits, index);
  }

  /** Sixteen small words are sixteen numbers. */
  lemma SmallInjective(a: bv64, b: bv64)
    requires a <= 15 && b <= 15 && a != b
    ensures a as nat != b as nat
  {
    assert (a as nat) as bv64 == a && (b as nat) as bv64 == b;
  }

  /**
   Keys whose hashes differ exactly in some of the bits 14 to 17 live in different shards, at
   the same bucket number of every table size.
   */
  lemma HomesDiffer(c: Config, x: Bytes, y: Bytes, bits: nat)
    requires c.sharded && c.hash(x) != c.hash(y) && c.hash(x) & 0xFFFF_FFFF_FFFC_3FFF == c.hash(y) & 0xFFFF_FFFF_FFFC_3FFF
    ensures Home(c, x) != Home(c, y) && IndexOf(c, x, bits) == IndexOf(c, y, bits)
  {
    ShardBits(c.hash(x), c.hash(y));
    hide ShardOf, BucketHash, Low;
    SmallInjective(ShardOf(c.hash(x)), ShardOf(c.hash(y)));
  }

  lemma ShardBits(g: bv64, h: bv64)
    requires g != h && g & 0xFFFF_FFFF_FFFC_3FFF == h & 0xFFFF_FFFF_FFFC_3FFF
    ensures ShardOf(g) != ShardOf(h) && BucketHash(g) == BucketHash(h) && ShardOf(g) <= 15 && ShardOf(h) <= 15
  {}

  lemma Below60(x: bv64)
    ensures Masked(x, MAX60) <= MAX60
  {}

  // ---------------------------------------------------------------------
  // Routed operations
  // ---------------------------------------------------------------------

  predicate Shaped(shards: seq<S.Sync>) {
    |shards| == NUM_SHARDS && forall s :: 0 <= s < NUM_SHARDS ==> S.Sized(shards[s]) && S.InCells(shards[s].m.cells, shards[s].queue)
  }

  function KeyOf(op: R.Op): Option<Bytes> {
    match op
    case OpInsert(kv, _) => Some(kv.key)
    case OpGet(k) => Some(k)
    case OpPeek(k) => Some(k)
    case OpRemove(k) => Some(k)
    case OpSetTtl(_) => None
  }

  /** Does an event reach shard `s`?  Keyed operations go to one shard, set_ttl and resize_all to all. */
  predicate Concerns(c: Config, x: SR.Event, s: nat) {
    x.Resize? || KeyOf(x.op).None? || Home(c, KeyOf(x.op).value) == s
  }

  /** One event of the sharded map: a keyed operation works on its home shard, the others on every shard in turn. */
  function Step(c: Config, auto: bool, shards: seq<S.Sync>, x: SR.Event): (out: seq<S.Sync>)
    requires Shaped(shards)
    ensures Shaped(out)
  {
    hide SR.Step, S.InCells, Home;
    if x.Do? && KeyOf(x.op).Some? then
      var s := Home(c, KeyOf(x.op).value);
      SR.StepInCells(c, auto, shards[s], x);
      shards[s := SR.Step(c, auto, shards[s], x)]
    else StepAll(c, auto, shards, x, NUM_SHARDS)
  }

  /** The loop of `set_ttl` and `resize_all` after `n` shards. */
  function StepAll(c: Config, auto: bool, shards: seq<S.Sync>, x: SR.Event, n: nat): (out: seq<S.Sync>)
    requires Shaped(shards) && n <= NUM_SHARDS
    ensures Shaped(out)
    ensures forall s :: 0 <= s < NUM_SHARDS ==> out[s] == if s < n then SR.Step(c, auto, shards[s], x) else shards[s]
    decreases n
  {
    hide SR.Step, S.InCells;
    if n == 0 then shards
    else
      SR.StepInCells(c, auto, shards[n - 1], x);
      StepAll(c, auto, shards, x, n - 1)[n - 1 := SR.Step(c, auto, shards[n - 1], x)]
  }

  function New(bits: nat): (shards: seq<S.Sync>)
    ensures Shaped(shards)
  {
    hide S.InCells;
    seq(NUM_SHARDS, s => SR.New(bits))
  }

  function Run(c: Config, auto: bool, shards: seq<S.Sync>, xs: seq<SR.Event>): (out: seq<S.Sync>)
    requires Shaped(shards)
    ensures Shaped(out)
    decreases |xs|
  {
    if xs == [] then shards else Step(c, auto, Run(c, auto, shards, xs[..|xs| - 1]), xs[|xs| - 1])
  }

  /** The part of a history that reaches shard `s`. */
  function Routed(c: Config, xs: seq<SR.Event>, s: nat): seq<SR.Event>
    decreases |xs|
  {
    if xs == [] then []
    else Routed(c, xs[..|xs| - 1], s) + if Concerns(c, xs[|xs| - 1], s) then [xs[|xs| - 1]] else []
  }

  /** Each shard runs exactly the part of the history that reaches it, resizes included, whatever the others do. */
  lemma {:induction false} ShardsIndependent(c: Config, auto: bool, shards: seq<S.Sync>, xs: seq<SR.Event>, s: nat)
    requires Shaped(shards) && s < NUM_SHARDS
    ensures Run(c, auto, shards, xs)[s] == SR.Run(c, auto, shards[s], Routed(c, xs, s))
    decreases |xs|
  {
    hide SR.Step, Home, S.InCells;
    if xs != [] {
      var n := |xs| - 1;
      ShardsIndependent(c, auto, shards, xs[..n], s);
      var before := Routed(c, xs[..n], s);
      if Concerns(c, xs[n], s) {
        assert (before + [xs[n]])[..|before|] == before;
      } else {
        assert before + [] == before;
      }
    }
  }

  /** The answer of a sharded lookup. */
  function Peek(c: Config, shards: seq<S.Sync>, key: Bytes): Option<Bytes>
    requires Shaped(shards)
  {
    R.Peek(c, shards[Home(c, key)].m, key)
  }

  /** The last insert of a key that no later remove undid. */
  function LastOp(ops: seq<R.Op>, key: Bytes): Option<R.Op> {
    var p := R.LastInsert(ops, key);
    if p.Some? then Some(ops[p.value]) else None
  }

  lemma LastAppend(ops: seq<R.Op>, op: R.Op, key: Bytes)
    ensures LastOp(ops + [op], key) ==
            if op.OpInsert? && op.kv.key == key then Some(op) else if op.OpRemove? && op.key == key then None else LastOp(ops, key)
  {
    assert (ops + [op])[..|ops|] == ops;
  }

  /** A key's home shard sees all that happens to the key. */
  lemma {:induction false} HomeSeesAll(c: Config, xs: seq<SR.Event>, key: Bytes)
    ensures LastOp(SR.Ops(Routed(c, xs, Home(c, key))), key) == LastOp(SR.Ops(xs), key)
    decreases |xs|
  {
    hide Home, LastOp;
    if xs != [] {
      var n, s := |xs| - 1, Home(c, key);
      var x, before := xs[n], Routed(c, xs[..n], s);
      HomeSeesAll(c, xs[..n], key);
      assert (before + [x])[..|before|] == before;
      assert before + [] == before && SR.Ops(before) + [] == SR.Ops(before) && SR.Ops(xs[..n]) + [] == SR.Ops(xs[..n]);
      if x.Do? {
        LastAppend(SR.Ops(before), x.op, key);
        LastAppend(SR.Ops(xs[..n]), x.op, key);
      }
    }
  }

  /**
   Over any history of the sharded map, resize_all and auto-growth included, a hit is the
   value of the key's last insert with no remove since, so a key never moves out of reach.
   */
  lemma HitIsLastInsert(c: Config, auto: bool, bits: nat, xs: seq<SR.Event>, key: Bytes)
    ensures var shards, last := Run(c, auto, New(bits), xs), LastOp(SR.Ops(xs), key);
            && (Peek(c, shards, key).Some? ==> last.Some? && last.value.OpInsert? && Peek(c, shards, key).value == last.value.kv.value)
            && (last.None? ==> Peek(c, shards, key).None?)
  {
    hide Run, SR.Run, Home, R.Peek, R.FindIn, S.InCells;
    var s := Home(c, key);
    ShardsIndependent(c, auto, New(bits), xs, s);
    SR.HitIsLastInsert(c, auto, bits, Routed(c, xs, s), key);
    HomeSeesAll(c, xs, key);
  }

  /** At any point of any history resize_all changes no answer. */
  lemma ResizeAllKeepsAnswers(c: Config, auto: bool, bits: nat, xs: seq<SR.Event>, n: nat, key: Bytes)
    ensures Peek(c, Run(c, auto, New(bits), xs + [SR.Resize(n)]), key) == Peek(c, Run(c, auto, New(bits), xs), key)
  {
    hide SR.Run, Home, R.Peek, S.InCells, SR.Grow;
    var s := Home(c, key);
    assert (xs + [SR.Resize(n)])[..|xs|] == xs;
    ShardsIndependent(c, auto, New(bits), xs, s);
    SR.ResizeKeepsAnswers(c, auto, bits, Routed(c, xs, s), n, key);
  }

  /** In every shard the default TTL is the argument of the last `set_ttl` of the whole map. */
  lemma DefaultIsLast(c: Config, auto: bool, bits: nat, xs: seq<SR.Event>, s: nat)
    requires s < NUM_SHARDS
    ensures Run(c, auto, New(bits), xs)[s].m.dflt == R.LastTtl(SR.Ops(xs))
  {
    hide Run, SR.Run, S.InCells, R.LastTtl;
    ShardsIndependent(c, auto, New(bits), xs, s);
    Q.DefaultIsLast(c, auto, bits, Routed(c, xs, s));
    RoutedTtl(c, xs, s);
  }

  lemma {:induction false} RoutedTtl(c: Config, xs: seq<SR.Event>, s: nat)
    ensures R.LastTtl(SR.Ops(Routed(c, xs, s))) == R.LastTtl(SR.Ops(xs))
    decreases |xs|
  {
    hide Home;
    if xs != [] {
      var n := |xs| - 1;
      var x, before := xs[n], Routed(c, xs[..n], s);
      RoutedTtl(c, xs[..n], s);
      assert (before + [x])[..|before|] == before;
      assert before + [] == before && SR.Ops(before) + [] == SR.Ops(before) && SR.Ops(xs[..n]) + [] == SR.Ops(xs[..n]);
      if x.Do? {
        assert (SR.Ops(before) + [x.op])[..|SR.Ops(before)|] == SR.Ops(before);
        assert (SR.Ops(xs[..n]) + [x.op])[..|SR.Ops(xs[..n])|] == SR.Ops(xs[..n]);
      }
    }
  }

  // ---------------------------------------------------------------------
  // set_ttl and resize_all on the shards themselves
  // ---------------------------------------------------------------------

  /** The shards share no object. */
  ghost predicate Apart(ms: seq<C.ConcurrentMap>)
    reads ms, set m | m in ms :: m.table.pool
  {
    forall i, j :: 0 <= i < j < |ms| ==> ms[i].Footprint() !! ms[j].Footprint()
  }

  ghost predicate AllValid(ms: seq<C.ConcurrentMap>)
    reads ms, set m | m in ms :: m.buffer, set m | m in ms :: m.table, set m | m in ms :: m.table.pool
    reads set m, o | m in ms && o in m.table.pool.repr :: o
  {
    forall i :: 0 <= i < |ms| ==> ms[i].Valid()
  }

  /** A shard none of whose objects changed is the shard it was. */
  twostate lemma Unmoved(m: C.ConcurrentMap)
    requires old(m.Valid()) && unchanged(old(m.Footprint()))
    ensures m.Valid() && m.Abs() == old(m.Abs()) && m.Footprint() == old(m.Footprint())
  {
    hide C.ConcurrentMap.Valid, C.ConcurrentMap.Abs;
  }

  method SetTtlOne(ms: seq<C.ConcurrentMap>, s: nat, ttl: nat)
    requires s < |ms| && Apart(ms) && AllValid(ms)
    modifies ms[s]
    ensures Apart(ms) && AllValid(ms)
    ensures ms[s].Abs() == old(ms[s].Abs()).(m := old(ms[s].Abs()).m.(dflt := ttl))
    ensures forall k :: 0 <= k < |ms| && k != s ==> ms[k].Abs() == old(ms[k].Abs())
  {
    hide C.ConcurrentMap.Valid, C.ConcurrentMap.Abs;
    ms[s].SetTtl(ttl);
    forall k | 0 <= k < |ms| && k != s
      ensures ms[k].Valid() && ms[k].Abs() == old(ms[k].Abs()) && ms[k].Footprint() == old(ms[k].Footprint())
    {
      assert ms[s] !in old(ms[k].Footprint());
      Unmoved(ms[k]);
    }
  }

  /** `set_ttl`: every shard takes the new default and is otherwise as it was. */
  method SetTtlAll(ms: seq<C.ConcurrentMap>, ttl: nat)
    requires |ms| == NUM_SHARDS && Apart(ms) && AllValid(ms)
    modifies ms
    ensures Apart(ms) && AllValid(ms)
    ensures forall k :: 0 <= k < |ms| ==> ms[k].Abs() == old(ms[k].Abs()).(m := old(ms[k].Abs()).m.(dflt := ttl))
  {
    hide C.ConcurrentMap.Valid, C.ConcurrentMap.Abs, C.ConcurrentMap.Footprint, Apart;
    for s := 0 to |ms|
      invariant Apart(ms) && AllValid(ms)
      invariant forall k :: 0 <= k < s ==> ms[k].Abs() == old(ms[k].Abs()).(m := old(ms[k].Abs()).m.(dflt := ttl))
      invariant forall k :: s <= k < |ms| ==> ms[k].Abs() == old(ms[k].Abs())
    {
      SetTtlOne(ms, s, ttl);
    }
  }

  /** Growing one shard leaves the others alone. */
  method ResizeOne(ms: seq<C.ConcurrentMap>, s: nat, n: nat)
    requires s < |ms| && Apart(ms) && AllValid(ms) && 2 * Pow2(CeilBits(n)) <= MAX_BUCKETS
    modifies ms[s], ms[s].buffer
    ensures Apart(ms) && AllValid(ms)
    ensures ms[s].Abs() == SR.Grow(ms[s].c, old(ms[s].Abs()), n)
    ensures forall key :: R.Peek(ms[s].c, ms[s].Abs().m, key) == old(R.Peek(ms[s].c, ms[s].Abs().m, key))
    ensures forall k :: 0 <= k < |ms| && k != s ==> ms[k].Abs() == old(ms[k].Abs())
  {
    hide SR.Grow, CeilBits, Pow2, R.Peek, C.ConcurrentMap.Valid, C.ConcurrentMap.Abs;
    ms[s].Resize(n);
    forall k | 0 <= k < |ms| && k != s
      ensures ms[k].Valid() && ms[k].Abs() == old(ms[k].Abs()) && ms[k].Footprint() == old(ms[k].Footprint())
    {
      assert ms[s] !in old(ms[k].Footprint()) && ms[s].buffer !in old(ms[k].Footprint());
      Unmoved(ms[k]);
    }
  }

  /**
   `resize_all`: each of the sixteen maps is grown in turn.  Every shard is then the grown
   map and answers every lookup as before.
   */
  method ResizeAll(ms: seq<C.ConcurrentMap>, n: nat)
    requires |ms| == NUM_SHARDS && Apart(ms) && AllValid(ms) && 2 * Pow2(CeilBits(n)) <= MAX_BUCKETS
    modifies ms, set m | m in ms :: m.buffer
    ensures Apart(ms) && AllValid(ms)
    ensures forall k :: 0 <= k < |ms| ==> ms[k].Abs() == SR.Grow(ms[k].c, old(ms[k].Abs()), n)
    ensures forall k, key :: 0 <= k < |ms| ==> R.Peek(ms[k].c, ms[k].Abs().m, key) == old(R.Peek(ms[k].c, ms[k].Abs().m, key))
  {
    hide SR.Grow, CeilBits, Pow2, R.Peek, C.ConcurrentMap.Valid, C.ConcurrentMap.Abs, C.ConcurrentMap.Footprint, Apart;
    for s := 0 to |ms|
      invariant Apart(ms) && AllValid(ms)
      invariant forall k :: 0 <= k < s ==> ms[k].Abs() == SR.Grow(ms[k].c, old(ms[k].Abs()), n)
      invariant forall k :: s <= k < |ms| ==> ms[k].Abs() == old(ms[k].Abs())
      invariant forall k, key :: 0 <= k < s ==> R.Peek(ms[k].c, ms[k].Abs().m, key) == old(R.Peek(ms[k].c, ms[k].Abs().m, key))
    {
      ResizeOne(ms, s, n);
    }
  }
}
